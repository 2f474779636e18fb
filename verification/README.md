# podmon's recovery protocol, modelled and verified in Dafny

podmon moves the pods of a failed Kubernetes node. Its controller side watches pods, nodes and the connection between
nodes and storage arrays; when a node is lost it validates that the array has lost the node too, fences the pod's
volumes, taints the node, deletes the volume attachments and force deletes the pod. Its node side, once the node is
back, cleans up what the deleted pods left behind and only then lifts the taint.

Verify everything with `dafny verify dfyconfig.toml`.

## How the model is built

* **The outside world is arbitrary.** Every call to the API server, the CSI driver or the file system is a method of
  `World.World` that answers anything at all and appends the call and its answer to a ghost trace. A method of the
  model returns a ghost log with `trace == old(trace) + log`; what is proved about logs holds for every pattern of
  answers.
* **Methods keep the source's form.** Objects whose fields the source updates are classes; loops are loops with
  invariants. Each method is proved against a predicate or a function that describes its log and its new state
  (`CleanupRun`, `SweepRun`, `Watch.After`, `Handling.Log`, ...), and the safety results are lemmas about those. Loop
  bodies with a long proof are methods of their own (`CheckNext`, `HandOver`, `JudgeNext`, ...).
* **Safety is stated on raw answers.** What a delete or a lifted taint rests on is said in the words of `Promises`, or
  spelled out: replies, taints, conditions, container states, directories and calls, with their literal texts. No
  operation, and no predicate that describes one, is used in these statements where a decision of the source is at stake.
  `Promises.OnlyPendingIsRetried` and `HandlerSafety.EventChangesTables` say in the same words what a retrying call and
  the tables after an event are.
* **Interleavings are state machines.** The pod lock, the pod instances and the volume attachment cache are also
  modelled as steps of any number of goroutines, with invariants over every run.

| module | about |
|---|---|
| `Kube`, `World`, `Monitor` | values, outside calls, the controller's tables, the node UID table |
| `Promises` | the words of the safety results, and what the string tests mean |
| `Connectivity` | the array connectivity cache, refining an unbounded history of samples |
| `ControllerCleanup`, `CleanupSafety` | the controller's clean-up of one pod, and what every run of it guarantees |
| `ArrayMonitor`, `HandOffs`, `MonitorSafety` | sampling and hand-offs of a poll round; the end-to-end safety of the deletes in the trace of all rounds |
| `InterleavedRounds`, `Incarnations` | rounds disturbed by watch events; nodes that are created again between samples |
| `ControllerHandler`, `HandlerSafety` | the controller's watch handler, and what one event means |
| `ControllerRuns`, `ControllerThreads` | the controller as one serial process; its goroutines interleaved; tables, crash loops and the cause of every delete over whole runs |
| `PodLock`, `Instances` | the per-pod lock; pod instances under interleaving |
| `VolumeAttachments`, `VolumeAttachmentProtocol`, `OwnAttachments` | the attachment cache; its coherence under interleaving; what clean-ups delete by it |
| `Taints` | the taint list |
| `NodeCleanup`, `NodeSweep`, `NodeSafety` | the node's clean-up of one pod; the sweep; when the taint may go |
| `NodeWatch`, `NodeVolumes` | the node's watch handler; runs of events and sweeps; the fate of recorded volumes |
| `ApiMonitor`, `NodeRuns` | the turns of the node's API monitor; the node as one process |

## What the code does that its comments do not say

* A clean-up that ignores a pod without volumes reports success although nothing was deleted
  (`ControllerCleanup.ControllerCleanupPod` says exactly when success is reported).
* On the node, a failed read of a pod counts as "gone" (`NodeSafety.AFailedReadCountsAsGone`), and a failed container
  listing reads as "no containers" (`NodeSafety.AFailedListingBlocksNothing`), so that every pod that
  may not be ignored and that the API server no longer has is cleaned, whatever still runs
  (`NodeSafety.AFailedListingCleansRunningPods`).
* An untainted reading does not restart the stabilisation count: `TaintCountDelay` counts tainted readings since the
  last reset, in a row or not (`ApiMonitor.CountSinceReset`).
* "Use the last podInfo recorded when pod ready" holds for Added events only: a Modified event has just replaced the
  record, so its clean-up always gets the node it has just read (`HandlerSafety.RecordedNodeStandsIn`).
* Two different volume/node pairs can share a cache key exactly when a name holds a slash
  (`VolumeAttachments.KeyIsUnambiguous`), and splitting a pod key undoes joining exactly when neither part does
  (`Kube.SplitUndoesJoin`).
* Labels that match hand a pod to clean-up once per matching pod, up to n * n times in a round
  (`MonitorSafety.RoundsCoverTheirPods`); at most one of these ends in a force delete, if no watch event is handled
  meanwhile (`MonitorSafety.DeletedAtMostOnce`).
* Records are loaded anew after the sampling, so a pod that was created again on another node may be deleted although
  its own node never lost the array (`InterleavedRounds.ReplacedRecordIsDeletedUnproven`); the loss is proven for it
  exactly under `InterleavedRounds.LossIsProvenIff`.
* Samples are kept by node name, so those of a node's earlier incarnation count for the next one: a node that was created
  again can be declared lost on a single sample of its own (`Incarnations.RecreatedNodeIsLostAtOnce`). The current
  incarnation was itself found lost often enough exactly when its UID did not change within the last threshold samples
  (`Incarnations.LossOfIncarnation`).
* A Deleted event is handled without a look at its UID, so a late one drops the record of a newer instance
  (`Instances.LateDeleteDropsLiveRecord`); it is harmless exactly when the pod is not recorded or the UIDs agree
  (`Instances.DropsOnlyItsRecordIff`). It clears the restart counter as well: an instance may be restarted more often than
  the limit (`ControllerRuns.LateDeleteAllowsMoreRestarts`), but only if a Deleted event came upon a pod that had been
  restarted since it was ready (`ControllerRuns.CounterFallsShortIff`).
* A pod that is created again on its node with no fewer volumes takes over the record of the old instance, whose volumes
  are then never cleaned, and the taint may go all the same (`NodeVolumes.RecreatedPodHidesOldVolume`,
  `NodeVolumes.EveryVolumeIsAccountedFor`).

## Model

| member | source | states |
|---|---|---|
| Kube.SplitUndoesJoin | internal/monitor/monitor.go:118-126 | splitting a pod key gives back namespace and name exactly when neither holds a slash |
| World.CallWithRetries | internal/monitor/controller.go:429-446 | at most CSIMaxRetries calls, repeated only after an error that ends in "pending", the last answer returned |
| Promises.SecondPartIff | internal/monitor/node.go:342-344 | the ID looked up is what stands between the first two "//" of a container ID, and there is one exactly if the ID has that shape |
| Promises.ContainsMeaning | internal/monitor/controller.go:401-412 | an error contains a text exactly when the text stands somewhere in its message |
| Monitor.PodMonitor.StoreNodeUID | internal/monitor/monitor.go:154-157 | the table changes as one announcement of the node changes it |
| Monitor.PodMonitor.ClearNodeUID | internal/monitor/monitor.go:171-173 | compare-and-swap: clears and reports true exactly when the stored UID is the given one |
| Monitor.NodeMonitorHandler | internal/monitor/monitor.go:265-297 | one watch event changes the UID table as the event history says, and calls nothing but a validation |
| Monitor.TableFollowsHistory | internal/monitor/monitor.go:153-173 | the stored UID is the last announced one, or empty if that same incarnation was deleted later; late deletes of older incarnations change nothing |
| Monitor.NodeHasTaint | internal/monitor/controller.go:654-661 | true exactly when the node has a taint with that key and effect |
| Monitor.CallValidate | internal/monitor/controller.go:385-419 | no node ID: an error without a call; an answer: its two flags, in their places; an error with "there is no corresponding SDC": disconnected and idle; any other: connected and busy, with the error |
| Connectivity.TrailingLossesMeaning | internal/monitor/controller.go:558-562 | at least n trailing losses exactly when the last n samples all failed |
| Connectivity.ConnectivityCache.ResetSampled | internal/monitor/controller.go:596-604 | a new round: flags and counters again agree with the unchanged histories |
| Connectivity.ConnectivityCache.CheckConnectivity | internal/monitor/controller.go:570-594 | counters and flags keep agreeing with the histories; at most one sample a round, none on a stale UID or an error; false exactly when the UID is current, a sample exists this round and the trailing losses reach the threshold; before the first reset it panics exactly when an answer is to be stored |
| ControllerCleanup.VolumeIDsMeaning | internal/monitor/controller.go:252-259 | the handles collected are exactly those of the CSI volumes |
| ControllerCleanup.VolumeIDsInOrder | internal/monitor/controller.go:252-259 | the handles come in the order of the volumes, one for each CSI volume |
| ControllerCleanup.GetVolumeIDs | internal/monitor/controller.go:252-259 | the handles of the CSI volumes, in order |
| ControllerCleanup.IsRWXVolume | internal/monitor/controller.go:193-209 | true exactly when some volume has a mode that is RWX or ReadWriteMany |
| ControllerCleanup.CallControllerUnpublishVolume | internal/monitor/controller.go:422-447 | no node ID: an error and no call; otherwise one bounded run of retries |
| ControllerCleanup.ReadAttachments | internal/monitor/controller.go:265-277 | one look-up per volume in order, up to the first error; the names found |
| ControllerCleanup.ValidateHost | internal/monitor/controller.go:279-325 | the driver is asked when it can be; the clean-up may go on exactly when the answer clears the host or a stated exception holds |
| ControllerCleanup.FenceVolumes | internal/monitor/controller.go:327-346 | every volume is fenced whatever happens to the others; ok exactly when all ended in success |
| ControllerCleanup.DeleteAttachments | internal/monitor/controller.go:354-364 | one delete and one second try each, up to the first that stays |
| ControllerCleanup.ControllerCleanupPod | internal/monitor/controller.go:212-381 | the log is a clean-up run; true exactly when the pod was ignored as volumeless or force deleted; the record goes exactly with a successful delete |
| CleanupSafety.PhasesInOrder | internal/monitor/controller.go:237-380 | every run moves forward through look-ups, validation, fencing, taint, detach, delete; validation, taint and delete are single calls |
| CleanupSafety.ValidationDecides | internal/monitor/controller.go:279-325 | when the driver is connected, the clean-up goes on to fence exactly when skipping is configured on a node tainted NoExecute, or the array answered for this node and these volumes and is disconnected (or podmon's taint was read) and idle (or a mode is RWX or ReadWriteMany), or does not know the host; it ends there exactly when not |
| CleanupSafety.DeleteIsJustified | internal/monitor/controller.go:279-380 | a delete comes last, after an answer that clears the host (or a stated exception), every CSI volume fenced in success, the taint, and every attachment deleted or not found on a second try |
| CleanupSafety.DeleteUnlessAborted | internal/monitor/controller.go:224-380 | the delete is asked for exactly unless one of the listed reasons, read off the log, stopped the run; ValidationDecides says when a question is the last event |
| CleanupSafety.OnlyOwnEffects | internal/monitor/controller.go:331-372 | a run touches only its own volumes, node, attachments and pod instance |
| CleanupSafety.EveryVolumeIsTried | internal/monitor/controller.go:331-336 | failing to fence one volume keeps no other from being tried |
| CleanupSafety.NamesMeaning | internal/monitor/controller.go:265-277 | the names to delete are exactly those of attachments found by the look-ups |
| ArrayMonitor.MapEqualsMap | internal/monitor/controller.go:705-717 | exactly equality of maps |
| ArrayMonitor.CheckPod | internal/monitor/controller.go:475-483 | all arrays are asked and nothing but the driver; disconnected only with a loss, connected only with an excuse for each array; keys newly lost are this record's |
| ArrayMonitor.SamplePods | internal/monitor/controller.go:463-492 | one turn of questions for each record met, as it was then recorded; exactly those found disconnected are listed, and exactly their nodes are to be tainted; left alone, every record gets a turn |
| ArrayMonitor.TurnsSort | internal/monitor/controller.go:475-492 | at the end of the sampling every record that had a turn is listed with a loss or left out with an excuse for each array |
| ArrayMonitor.TurnsListLosses | internal/monitor/controller.go:484-487 | every key sampled this round is one of a sampled record with a current node, whose UID the sample tells; if it is lost, one of a listed record |
| ArrayMonitor.NodesOfMeaning | internal/monitor/controller.go:484-487 | the nodes to taint are exactly the nodes of listed records |
| ArrayMonitor.TaintNodes | internal/monitor/controller.go:494-501 | exactly one attempt per node and no other call, whatever the answers |
| ArrayMonitor.AttemptedMeaning | internal/monitor/controller.go:495-501 | a node counts as attempted exactly when the log holds its taint call |
| HandOffs.ProcessPodInfoForCleanup | internal/monitor/controller.go:542-556 | a clean-up runs exactly when the pod read is the instance and the node of the record that was loaded, whatever other goroutines did to the records since |
| HandOffs.CleanAffine | internal/monitor/controller.go:512-525 | only listed pods are handed over, each as loaded; left alone, exactly the listed pods that are still recorded with these labels are |
| HandOffs.CleanPods | internal/monitor/controller.go:503-529 | only listed pods are handed over, at most n * n times; left alone, group by group, and the records left are the old ones minus the deleted |
| MonitorSafety.PollRound | internal/monitor/controller.go:463-529 | one round: sample, then taint, then clean up, with all round facts, left alone or not; every record sampled or handed over is one that was recorded at that moment |
| MonitorSafety.ArrayConnectivityMonitor | internal/monitor/controller.go:460-539 | the facts of each round over any number of rounds, with watch events between rounds and during some of them; the tables of all rounds are one chronicle of handled events |
| MonitorSafety.SamplesAreBacked | internal/monitor/controller.go:570-594 | every sample of every round comes from an error-free answer in the log of its own round |
| MonitorSafety.LossIsProven | internal/monitor/controller.go:484-487 | a listed pod has threshold many samples in a row, from distinct rounds, the last in this round, each with a reply in its own round's log that says disconnected, or that the host is unknown |
| MonitorSafety.LostNodesSaySo | internal/monitor/controller.go:475-487 | in threshold many rounds up to this one the driver was asked about the listed pod's node and said disconnected, or that the host is unknown (node names without colons) |
| MonitorSafety.ForceDeletesAreSafe | internal/monitor/controller.go:460-556 | end to end, for every position of the trace of a run that holds a delete of a pod: it is where one hand-off of one round ends, of the loaded instance on its recorded node, a record of that key was sampled on proven array loss and its node's taint attempted, the clean-up was told anew that the host is disconnected (and idle, unless a volume is shared) or unknown, and all that a delete rests on was done; left alone, the record is the sampled one |
| MonitorSafety.DeletedAtMostOnce | internal/monitor/controller.go:503-529 | in the log of a round that is left alone no two positions hold a successful delete of the same pod |
| MonitorSafety.RoundsCoverTheirPods | internal/monitor/controller.go:463-529 | only listed pods are handed over, at most n * n times; left alone, every record is sampled and every listed pod handed over; a sampled pod that is not listed has an excuse per array |
| MonitorSafety.AffinePodsGoTogether | internal/monitor/controller.go:510-524 | left alone, a stretch of the round's hand-offs is of pods with given labels only and holds every listed pod with them |
| InterleavedRounds.LossIsProvenIff | internal/monitor/controller.go:503-524 | for a record loaded after watch events, loss is proven exactly when its node copy is current and it shares a lost node/array key with a listed record |
| InterleavedRounds.OnOneArray | internal/monitor/controller.go:503-524 | with the default array only: exactly when its node copy is current and a listed record was sampled on the same node |
| InterleavedRounds.ReplacedRecordIsDeletedUnproven | internal/monitor/controller.go:503-529 | a run, with both records stored by handled events, in which a pod created again on another node is force deleted although its node's array was never asked about |
| Incarnations.LossOfIncarnation | internal/monitor/controller.go:570-594 | a lost key was last asked about for the current node of a sampled record; that incarnation was itself found disconnected threshold times in a row exactly when the node's UID did not change within the last threshold samples |
| Incarnations.RecreatedNodeIsLostAtOnce | internal/monitor/controller.go:570-594 | a run of two rounds in which a node created again is declared lost on the first sample of its own, with a threshold of two |
| ControllerHandler.PodStatus | internal/monitor/controller.go:773-786 | ready exactly when the last Ready condition is true |
| ControllerHandler.FindCrashLoop | internal/monitor/controller.go:104-112 | true exactly when some container waits in CrashLoopBackOff |
| ControllerHandler.PodToArrayIDs | internal/monitor/controller.go:450-455 | the default array, and the number of volumes read, up to the first that failed |
| ControllerHandler.ControllerModePodHandler | internal/monitor/controller.go:56-180 | the new records, restart counters, node UIDs, log and started clean-up of one event, for every event and every answer |
| ControllerHandler.RecordPod | internal/monitor/controller.go:117-148 | a ready or modified pod is recorded unless it is ignored as volumeless; only a ready one resets its counter |
| ControllerHandler.ActOnPod | internal/monitor/controller.go:152-175 | a clean-up, a restart below the limit, or nothing, and the counter to match |
| HandlerSafety.RestartsSinceMeaning | internal/monitor/controller.go:144-173 | restarts since the last reset are the number of graceful deletes after its position |
| HandlerSafety.CleanupsAreQuiet | internal/monitor/controller.go:366-380 | a clean-up never deletes gracefully and resets no counter |
| HandlerSafety.EventActs | internal/monitor/controller.go:69-175 | an event starts a clean-up exactly when a pod that is not ready was read on a node with one of the four taints (unless ignored as volumeless), and deletes gracefully exactly when one in CrashLoopBackOff was read on a node with none, fewer than five times |
| HandlerSafety.HandlingIsCounted | internal/monitor/controller.go:69-175 | one event keeps the counter equal to the restarts since the last reset, within the limit |
| HandlerSafety.CountedShortIff | internal/monitor/controller.go:69-73 | restarts since the last reset fall short of those since the pod was ready exactly when a Deleted event came upon a pod restarted since |
| ControllerRuns.Controller | internal/monitor/controller.go:56-556 | any serial run of pod events, node events, poll rounds and started clean-ups is a run of the steps below, with these tables and this trace |
| ControllerRuns.JobsAreJustified | internal/monitor/controller.go:95-161 | in every run, each clean-up that was started was started for a pod instance read as not ready, with its node read, both in the trace; its two flags are exactly the taints the node was read with |
| ControllerRuns.CleanupsAreStarted | internal/monitor/controller.go:95-161 | in every run, an event starts exactly one clean-up, of the instance it read, if that pod needs one, and none otherwise |
| ControllerRuns.JobsAreOnNodesRead | internal/monitor/controller.go:152-161 | in every run the node a clean-up works on is an answer in the trace |
| ControllerRuns.RecordsAreKeyed | internal/monitor/controller.go:134-143 | in every run every record sits under its own key |
| ControllerRuns.RecordsWereRead | internal/monitor/controller.go:117-143 | in every run each record's node, UID and labels are those of a pod and its node as read in the trace |
| ControllerRuns.UIDsFollowHistory | internal/monitor/controller.go:91-94 | in every run the node UIDs are what node events and the pod handler's reads together make of them |
| ControllerRuns.RoundsAreQuiet | internal/monitor/controller.go:460-556 | a poll round deletes nothing gracefully and resets no counter |
| ControllerRuns.CrashLoopsAreBounded | internal/monitor/controller.go:162-175 | in every run, graceful deletes since the last reset equal the counter and never exceed MaxCrashLoopBackOffRetry |
| ControllerRuns.CounterFallsShortIff | internal/monitor/controller.go:69-175 | in every run the counter is less than the restarts since the pod was ready exactly when a Deleted event came upon a pod restarted since, and otherwise no instance is restarted more often than the limit since |
| ControllerRuns.LateDeleteAllowsMoreRestarts | internal/monitor/controller.go:69-73 | a run that restarts an instance that was never ready once more than the limit, after the Deleted event of an older instance |
| ControllerRuns.DeletesHaveACause | internal/monitor/controller.go:56-556 | in every run, each position of the trace that holds a delete of a pod was written by a step that is a crash-loop restart, or by a round whose hand-off at that position is a safe force delete, or ends a clean-up that did all a delete rests on and was started for a pod read as not ready on a node read with a taint |
| ControllerThreads.DeletesHaveACause | internal/monitor/controller.go:56-556 | the same for each position of the trace under every interleaving of handlers, started clean-ups and the monitor, with rounds that need not be left alone |
| PodLock.MutualExclusion | internal/monitor/monitor.go:139-151 | in every reachable state at most one goroutine is inside per key, and a key is held exactly when one is |
| PodLock.TrySucceedsIffFree | internal/monitor/monitor.go:139-146 | a try succeeds exactly when nobody is inside for that key; other keys are not affected |
| Instances.StepsAreLockSteps | internal/monitor/controller.go:219-222 | handlers and clean-ups use the lock as the lock's own machine allows |
| Instances.RemovedOnce | internal/monitor/controller.go:372-376 | no UID is removed twice, and a removed one never runs again |
| Instances.RemovesOnlyItsInstance | internal/monitor/controller.go:218-232 | under any interleaving a clean-up removes only the instance it was started for |
| Instances.ForgetsOnlyItsRecord | internal/monitor/controller.go:373-376 | dropping the record never drops that of another instance |
| Instances.LateDeleteDropsLiveRecord | internal/monitor/controller.go:69-73 | a run in which a late Deleted event, handled when the handler before it is done, drops the record of the live, newer instance |
| Instances.ItsRecordIsDead | internal/monitor/controller.go:69-73 | the instance a Deleted event tells of is not live when the event is handled, nor ever after |
| VolumeAttachments.Client.GetCachedVolumeAttachment | internal/k8sapi/k8sapi.go:108-140 | a hit asks and changes nothing; a miss lists all attachments, a failed list changes nothing, a reload rebuilds both maps and returns the last fitting item or nil |
| VolumeAttachments.Client.DeleteVolumeAttachment | internal/k8sapi/k8sapi.go:152-171 | the API server is asked to delete, its answer is returned, and the name is purged from both maps whatever it was |
| VolumeAttachments.FitIsListed | internal/k8sapi/k8sapi.go:130-139 | what a reload finds is a listed item of that key, and nothing is found exactly when there is none |
| VolumeAttachments.RebuildIsCoherent | internal/k8sapi/k8sapi.go:127-138 | after a reload every entry sits under its own key and its name leads back to it |
| VolumeAttachments.KeyIsUnambiguous | internal/k8sapi/k8sapi.go:111 | a key belongs to one pair only exactly when neither name holds a slash |
| VolumeAttachments.HitAnswersTheQuestion | internal/k8sapi/k8sapi.go:113-118 | with slash-free volume names a hit is for the volume and node asked for |
| VolumeAttachmentProtocol.DeletedStaysOutOfCache | internal/k8sapi/k8sapi.go:108-171 | after a delete has returned, no reachable state caches the name unless the API server holds it again |
| VolumeAttachmentProtocol.AnswersAreRight | internal/k8sapi/k8sapi.go:108-140 | in every reachable state a hit or a fresh list answers for the pair asked for, if only attachments of slash-free volumes are created |
| OwnAttachments.DeletesOnlyOwnAttachments | internal/monitor/controller.go:264-277 | answered from the shared cache, a clean-up deletes only attachments of its own volumes on its own node |
| Taints.NodeObject.TaintExists | internal/k8sapi/k8sapi.go:484-491 | true exactly when a taint with that key and effect is listed |
| Taints.NodeObject.UpdateTaint | internal/k8sapi/k8sapi.go:431-481 | the new list, whether to patch, and which operation is reported |
| Taints.AddThenRemove | internal/k8sapi/k8sapi.go:442-476 | adding an absent taint and removing it gives back the exact list |
| Taints.OneRequest | internal/k8sapi/k8sapi.go:442-476 | presence follows the request, a repetition changes nothing, other taints keep their order; a new one comes first, stamped with the time |
| Taints.LastRequestDecides | internal/k8sapi/k8sapi.go:431-481 | over any sequence of requests the last one for a taint decides; it occurs at most once if it did before |
| NodeCleanup.CallNodeUnstage | internal/monitor/node.go:540-559 | one bounded run of retries per used directory; an excused error is not kept |
| NodeCleanup.FinishVolume | internal/monitor/node.go:447-463 | unmount, remove, final clean-up; a failed unmount and a missing target do not count |
| NodeCleanup.UnstageVolume | internal/monitor/node.go:428-445 | each directory the driver uses is unstaged with retries; the last bad outcome is returned |
| NodeCleanup.CleanupVolume | internal/monitor/node.go:421-464 | unpublish, unstage, unmount, remove, final clean-up in order; only a bad unpublish ends it early |
| NodeCleanup.NodeModeCleanupPod | internal/monitor/node.go:412-514 | all mounts and then all devices are cleaned whatever failed before; the last bad error is returned |
| NodeCleanup.PodIsCleanIffNothingBad | internal/monitor/node.go:412-514 | nil exactly when nothing bad happened, and then every mount is unpublished, unstaged from both directories in use, its private mount directory removed right after the unmount, and finally cleaned up as a mount; every device likewise with its block device path, as a device |
| NodeCleanup.VolumeStepsInOrder | internal/monitor/node.go:421-464 | a volume's clean-up moves forward through unpublish, unstage, unmount, remove, final clean-up, and nothing follows an unpublish that failed without excuse |
| NodeCleanup.EveryVolumeIsTried | internal/monitor/node.go:412-514 | every volume is asked to be unpublished, regardless of earlier failures |
| NodeCleanup.RetryBad | internal/monitor/node.go:517-559 | of a retrying call only the returned outcome can count as bad |
| NodeSweep.AnyExecuting | internal/monitor/node.go:341-353 | true exactly when one of the pod's containers is listed as running or created |
| NodeSweep.JudgePod | internal/monitor/node.go:305-374 | ignored, skipped or to be cleaned, as the options and the answers say |
| NodeSweep.JudgePods | internal/monitor/node.go:299-375 | every tracked pod is judged once; the two lists stay in step with those to be cleaned |
| NodeSweep.CleanJudgedPods | internal/monitor/node.go:378-388 | each judged pod is cleaned in order; those without an error are forgotten |
| NodeSweep.NodeModeCleanupPods | internal/monitor/node.go:284-404 | the log is a sweep; true exactly when the taint was asked to go and the request was granted |
| NodeSafety.EachPodIsJudgedOnce | internal/monitor/node.go:304-375 | the verdicts partition the tracked pods |
| NodeSafety.CleanedPodsWereJudged | internal/monitor/node.go:370-388 | only pods judged so are cleaned, as they were tracked |
| NodeSafety.JudgedPodsAreCleaned | internal/monitor/node.go:370-388 | every pod judged so is cleaned |
| NodeSafety.SkippedIff | internal/monitor/node.go:338-372 | a pod is skipped exactly when it may not be ignored and the runtime lists one of its containers as running or created, or the API server still has the instance; and then it is not cleaned and the taint stays |
| NodeSafety.OnlyCleanedPodsAreForgotten | internal/monitor/node.go:378-398 | what is tracked afterwards is what was tracked minus exactly the pods cleaned without error, whatever the final request answers |
| NodeSafety.UntaintIsSafe | internal/monitor/node.go:284-404 | if the taint goes, every tracked pod may be ignored, or none of its containers was listed as running or created, the instance was not found, every mount and device was cleaned completely, and it is forgotten |
| NodeSafety.UntaintIff | internal/monitor/node.go:389-403 | the taint is asked to go exactly when no pod blocks and no cleaning failed |
| NodeSafety.AFailedListingBlocksNothing | internal/monitor/node.go:288-295 | after a failed container listing a pod keeps the taint exactly when it was read twice and the API server still has the instance |
| NodeSafety.AFailedListingCleansRunningPods | internal/monitor/node.go:288-372 | after a failed container listing every pod that may not be ignored is cleaned unless the API server still has the instance, whatever containers it runs |
| NodeSafety.AFailedReadCountsAsGone | internal/monitor/node.go:357-372 | a pod whose second read fails is cleaned, unless it may be ignored or executes |
| NodeWatch.FoundMeaning | internal/monitor/node.go:192-236 | the volumes found are exactly those of the entries that could be read |
| NodeWatch.FindsReadableEntries | internal/monitor/node.go:173-236 | what an event finds is one mount per readable entry of the pod's volume directory, one device per readable entry of its device directory, with these paths and handles |
| NodeWatch.ScanEntries | internal/monitor/node.go:192-236 | reads the volume of each entry and leaves out those that fail |
| NodeWatch.NodeModePodHandler | internal/monitor/node.go:140-258 | log, returned error and new tracked pods of one event, for every listing and answer |
| NodeWatch.RecordVolumes | internal/monitor/node.go:162-246 | both scans, and the record kept unless fewer mounts or fewer devices were found |
| NodeWatch.CountsNeverShrink | internal/monitor/node.go:173-246 | over every run of events and sweeps, mounts and devices of a pod never become fewer while it stays tracked |
| NodeWatch.LeavesOnlyForAReason | internal/monitor/node.go:247-255 | a pod stops being tracked exactly on a Deleted event with its node seen untainted, or when a sweep cleaned it |
| NodeWatch.RecordsHaveASource | internal/monitor/node.go:156-245 | every record is what an earlier Added or Modified event of a pod of this node found, no fewer than before, unaltered since |
| NodeWatch.RecordsAreOwned | internal/monitor/node.go:145-236 | every record is of a pod of this node outside the driver's namespace, with paths in that instance's directories |
| NodeWatch.SweepsCanSplitKeys | internal/monitor/node.go:318 | a sweep can split every tracked key, given slash-free names |
| NodeWatch.VolumeLeavesIff | internal/monitor/node.go:238-255 | a recorded volume leaves the records exactly when a sweep cleaned its pod, or a watch event overlooks it |
| NodeWatch.VolumeFate | internal/monitor/node.go:238-255 | a volume no longer recorded was, at the last step that knew it, cleaned by a sweep or overlooked |
| NodeVolumes.EveryVolumeIsAccountedFor | internal/monitor/node.go:284-404 | when the taint is lifted, every volume ever recorded is of a pod that may be ignored, or was cleaned by a sweep, or was overlooked |
| NodeVolumes.RecreatedPodHidesOldVolume | internal/monitor/node.go:238-245 | for every pod created again on the node, a run that lifts the taint although the old instance's volume was recorded and never cleaned |
| ApiMonitor.ContactIsLostByFourReads | internal/monitor/node.go:76-95 | contact is lost in a turn exactly by four failed reads |
| ApiMonitor.ReadNode | internal/monitor/node.go:74-112 | the reading of a turn: failed, or tainted exactly when the node read has podmon's taint with NoSchedule |
| ApiMonitor.RetryRead | internal/monitor/node.go:79-85 | up to three retries, ended by the first success |
| ApiMonitor.FailedTurn | internal/monitor/node.go:78-94 | four failed reads, and nothing less, lose the connection and the count |
| ApiMonitor.CountTainted | internal/monitor/node.go:112-121 | a tainted reading counts, and from the TaintCountDelay-th on it runs the sweep; a lifted taint starts the count again |
| ApiMonitor.TakeTurn | internal/monitor/node.go:74-127 | one turn: the reading, connection, count, reads, and the sweep it ran, if any, with its result |
| ApiMonitor.LostMeansNoCount | internal/monitor/node.go:86-95 | while the connection is lost the count is 0 |
| ApiMonitor.LostMeansFourFailures | internal/monitor/node.go:76-112 | lost exactly when some turn failed four reads and no first read has succeeded since |
| ApiMonitor.CountSinceReset | internal/monitor/node.go:112-126 | the count is the number of tainted readings since the last reset |
| ApiMonitor.SweepNeedsDelay | internal/monitor/node.go:112-121 | a sweep starts exactly on a tainted reading that is at least the TaintCountDelay-th since the last reset |
| ApiMonitor.SweepsAreBudgeted | internal/monitor/node.go:72-132 | TaintCountDelay times the successful sweeps, plus the count, never exceeds the tainted readings |
| NodeRuns.ApiMonitorLoop | internal/monitor/node.go:72-132 | any serial run of turns, the sweeps they start and watch events is a run of these moments, with this status, these tracked pods and this trace |
| NodeRuns.RunsAreWatched | internal/monitor/node.go:72-132 | what is proved about runs of events and sweeps holds of every such run |
| NodeRuns.LiftIsSafe | internal/monitor/node.go:112-121 | a sweep that lifts the taint is started on a tainted reading that is at least the TaintCountDelay-th since the last reset, and leaves every tracked pod safely |
| NodeRuns.GrantedUntaintsAreSafe | internal/monitor/node.go:72-132 | every position of the trace of such a run that holds a granted taint request is the last event of the moment that wrote it, and that moment is a safe lift |

## Left out

- The never-ending loops run for a parameter: `polls` rounds, `turns` of the controller, `moments` of the node.
- MonitorSafety.ArrayConnectivityMonitor: watch events change the tables between rounds and at any point of a round but one: while the arrays of one record are asked about, the node UIDs stay.
- ControllerHandler.WatchEvents: gives what other goroutines do to the tables meanwhile, not what they add to the trace.
- ControllerRuns.Controller: is serial, with rounds that are left alone; its tables and trace agree exactly. `ControllerThreads` interleaves the logs of goroutines, each of which meets whatever it meets in the tables.
- PodLock and Instances: no liveness of the spinning `Lock`; the table and its LoadOrStore are atomic steps.
- VolumeAttachments.Client.DeleteVolumeAttachment: is one step here; the API call outside the lock is a step of its own in `VolumeAttachmentProtocol`.
- ControllerHandler.ControllerModePodHandler: events of the driver's own pods (`controllerModeDriverPodHandler`) are not part of this model; a clean-up it starts runs later as a step of `ControllerRuns`, and beside other handlers in `Instances`.
- NodeSweep.NodeModeCleanupPods: runs alone; a watch event during a sweep is not modelled.
- NodeWatch.ScanEntries: a volume in the CSI directories is taken to be a CSI volume; on another kind the source panics. A directory listing that failed has no entries.
- Sleeping, time-outs, contexts, logging, recorded events (`CreateEvent`), cache hit counters and the `initialized` condition: no effect on the protocol.
- The CSI node ID annotation is a string that is empty when it cannot be read; its JSON parsing is not modelled. The patch that `TaintNode` sends is taken to install the new list.
- What differs between drivers (staging paths, excused errors) is a parameter of arbitrary functions; unmounting and removing are outside calls.
- Nil maps read as empty maps; a write to one is modelled as the panic it is (`CheckConnectivity`).
- Connecting, watch set-up and restart, leader election, flags, and the CSI, CRI and Kubernetes clients.
