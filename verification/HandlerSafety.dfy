/** What one event handled by the controller means: restarts are counted, clean-ups are started for a reason. */
module HandlerSafety {
  import opened Kube
  import opened World
  import opened Monitor
  import opened ControllerHandler
  import ControllerCleanup
  import CleanupSafety
  import opened Promises

  // ---------------------------------------------------------------- restarts in a trace

  /** A crash loop starts afresh once the pod was recorded as ready, or was deleted. */
  predicate IsReset(e: Event, key: string) {
    e == ReadyStored(key) || (e.DeleteObserved? && e.podKey == key)
  }

  /** A graceful delete of the pod was asked for, whatever the answer. */
  predicate IsRestart(e: Event, key: string) {
    e.Did? && e.call.DeletePod? && e.call.podKey == key && !e.call.force
  }

  function RestartsSince(trace: seq<Event>, key: string): nat {
    if trace == [] then 0
    else
      var before, last := trace[..|trace| - 1], trace[|trace| - 1];
      if IsReset(last, key) then 0
      else RestartsSince(before, key) + if IsRestart(last, key) then 1 else 0
  }

  /** The trace from position i on holds no reset. */
  ghost predicate NoResetFrom(trace: seq<Event>, key: string, i: nat) {
    i <= |trace| && forall j :: i <= j < |trace| ==> !IsReset(trace[j], key)
  }

  ghost function RestartPositions(trace: seq<Event>, key: string, i: nat): set<int> {
    set j | i <= j < |trace| && IsRestart(trace[j], key)
  }

  /** RestartsSince counts the restarts after the last reset, or all of them when there was none. */
  lemma {:induction false} RestartsSinceMeaning(trace: seq<Event>, key: string, i: nat)
    requires NoResetFrom(trace, key, i) && (i == 0 || IsReset(trace[i - 1], key))
    ensures RestartsSince(trace, key) == |RestartPositions(trace, key, i)|
  {
    if trace != [] {
      var n := |trace| - 1;
      if i <= n {
        RestartsSinceMeaning(trace[..n], key, i);
        OneMorePosition(trace, key, i);
      } else {
        assert RestartPositions(trace, key, i) == {};
      }
    }
  }

  lemma OneMorePosition(trace: seq<Event>, key: string, i: nat)
    requires i < |trace|
    ensures |RestartPositions(trace, key, i)| ==
              |RestartPositions(trace[..|trace| - 1], key, i)| + if IsRestart(trace[|trace| - 1], key) then 1 else 0
  {
    var n := |trace| - 1;
    var earlier := RestartPositions(trace[..n], key, i);
    assert n !in earlier;
    if IsRestart(trace[n], key) {
      assert RestartPositions(trace, key, i) == earlier + {n};
    } else {
      assert RestartPositions(trace, key, i) == earlier;
    }
  }

  lemma RestartsOn(trace: seq<Event>, e: Event, key: string)
    ensures RestartsSince(trace + [e], key) ==
              if IsReset(e, key) then 0 else RestartsSince(trace, key) + if IsRestart(e, key) then 1 else 0
  {
    assert (trace + [e])[..|trace|] == trace;
  }

  /** Nothing in the log restarts a pod or ends a crash loop. */
  ghost predicate Quiet(log: seq<Event>) {
    forall e :: e in log ==> forall key :: !IsReset(e, key) && !IsRestart(e, key)
  }

  lemma {:induction false} QuietAdds(trace: seq<Event>, log: seq<Event>, key: string)
    requires Quiet(log)
    ensures RestartsSince(trace + log, key) == RestartsSince(trace, key)
  {
    if log == [] {
      assert trace + log == trace;
    } else {
      var before, last := log[..|log| - 1], log[|log| - 1];
      assert log == before + [last];
      assert last in log && forall e :: e in before ==> e in log;
      QuietAdds(trace, before, key);
      assert trace + log == trace + before + [last];
      RestartsOn(trace + before, last, key);
    }
  }

  /** A clean-up never restarts a pod gracefully and ends no crash loop. */
  lemma CleanupsAreQuiet(j: ControllerCleanup.Job, stale: bool, r: ControllerCleanup.Run)
    requires ControllerCleanup.CleanupRun(j, stale, r)
    ensures Quiet(r.Flat())
  {
    CleanupSafety.RunIsShaped(j, stale, r);
    forall e | e in r.Flat() ensures Harmless(e) {
      CleanupSafety.EventsAreSourced(j, r, e);
    }
  }

  /** No pod is restarted, and none recorded as ready or deleted. */
  predicate Harmless(e: Event) {
    !e.ReadyStored? && !e.DeleteObserved? && (e.Did? && e.call.DeletePod? ==> e.call.force)
  }

  // ---------------------------------------------------------------- since the pod was ready

  /** The restarts since the pod was last recorded as ready, whatever Deleted events came in between. */
  function SinceReady(trace: seq<Event>, key: string): nat {
    if trace == [] then 0
    else
      var before, last := trace[..|trace| - 1], trace[|trace| - 1];
      if last == ReadyStored(key) then 0 else SinceReady(before, key) + if IsRestart(last, key) then 1 else 0
  }

  /** Those of one instance. */
  function RestartsOf(trace: seq<Event>, key: string, uid: string): nat {
    if trace == [] then 0
    else
      var before, last := trace[..|trace| - 1], trace[|trace| - 1];
      if last == ReadyStored(key) then 0
      else RestartsOf(before, key, uid) + if IsRestart(last, key) && last.call.uid == uid then 1 else 0
  }

  lemma {:induction false} InstanceWithinPod(trace: seq<Event>, key: string, uid: string)
    ensures RestartsOf(trace, key, uid) <= SinceReady(trace, key)
  {
    if trace != [] { InstanceWithinPod(trace[..|trace| - 1], key, uid); }
  }

  /** At position d, a Deleted event found the pod restarted since it was ready; and it has not been ready since. */
  predicate ForgetsAt(trace: seq<Event>, key: string, d: int) {
    && 0 <= d < |trace| && trace[d].DeleteObserved? && trace[d].podKey == key && SinceReady(trace[..d], key) > 0
    && forall i :: d < i < |trace| ==> trace[i] != ReadyStored(key)
  }

  ghost predicate Forgets(trace: seq<Event>, key: string) {
    exists d :: 0 <= d < |trace| && ForgetsAt(trace, key, d)
  }

  lemma ForgetsOn(trace: seq<Event>, e: Event, key: string)
    ensures Forgets(trace + [e], key) <==>
              e != ReadyStored(key) && (Forgets(trace, key) || (e.DeleteObserved? && e.podKey == key && SinceReady(trace, key) > 0))
  {
    var more := trace + [e];
    assert more[..|trace|] == trace && more[|trace|] == e;
    if d :| 0 <= d < |trace| && ForgetsAt(trace, key, d) {
      assert more[..d] == trace[..d];
      if e != ReadyStored(key) { assert ForgetsAt(more, key, d); }
    }
    if d :| 0 <= d < |more| && ForgetsAt(more, key, d) {
      assert d == |trace| || e != ReadyStored(key);
      if d < |trace| {
        assert more[..d] == trace[..d] && forall i :: d < i < |trace| ==> trace[i] == more[i];
        assert ForgetsAt(trace, key, d);
      }
    }
    if e.DeleteObserved? && e.podKey == key && SinceReady(trace, key) > 0 { assert ForgetsAt(more, key, |trace|); }
  }

  /** What is counted falls short of the restarts since the pod was ready exactly when some Deleted event came upon a pod
      that had been restarted since. */
  lemma {:induction false} CountedShortIff(trace: seq<Event>, key: string)
    ensures RestartsSince(trace, key) <= SinceReady(trace, key)
    ensures RestartsSince(trace, key) < SinceReady(trace, key) <==> Forgets(trace, key)
  {
    if trace != [] {
      var before, last := trace[..|trace| - 1], trace[|trace| - 1];
      CountedShortIff(before, key);
      ForgetsOn(before, last, key);
      assert trace == before + [last];
    }
  }

  // ---------------------------------------------------------------- counting restarts

  /** The counter of a pod is the number of its restarts since the last reset, and at most 5. */
  ghost predicate Counted(counts: map<string, nat>, trace: seq<Event>, key: string) {
    RestartsSince(trace, key) == CountOf(counts, key) <= 5
  }

  lemma DeletedIsCounted(c: Config, h: Handling, infos: map<string, PodInfo>, counts: map<string, nat>, trace: seq<Event>, key: string)
    requires Counted(counts, trace, key) && h.kind.Deleted?
    ensures Counted(h.Counts(c, counts), trace + h.Log(c, infos, counts), key)
  {
    RestartsOn(trace, DeleteObserved(h.key, h.uid), key);
  }

  /** Reading and recording count nothing; a stored ready pod resets its own counter. */
  lemma RecordingCounts(c: Config, h: Handling, trace: seq<Event>, key: string)
    requires !h.kind.Deleted?
    ensures RestartsSince(trace + h.ReadLog() + h.RecordLog(c), key) ==
              if h.Stores(c) && h.Ready() && key == h.key then 0 else RestartsSince(trace, key)
  {
    QuietAdds(trace, h.ReadLog(), key);
    if h.Stores(c) && h.Ready() {
      StoringResets(c, h, trace + h.ReadLog(), key);
    } else {
      QuietAdds(trace + h.ReadLog(), h.RecordLog(c), key);
    }
  }

  lemma StoringResets(c: Config, h: Handling, trace: seq<Event>, key: string)
    requires h.Stores(c) && h.Ready()
    ensures RestartsSince(trace + h.RecordLog(c), key) == if key == h.key then 0 else RestartsSince(trace, key)
  {
    var read := PVsRead(h.key, h.pvs, h.pvcCount);
    QuietAdds(trace, [read], key);
    RestartsOn(trace + [read], ReadyStored(h.key), key);
    assert trace + h.RecordLog(c) == trace + [read] + [ReadyStored(h.key)];
  }

  lemma ActingCounts(c: Config, h: Handling, infos: map<string, PodInfo>, counts: map<string, nat>, trace: seq<Event>, key: string)
    ensures RestartsSince(trace + h.ActLog(c, infos, counts), key) ==
              RestartsSince(trace, key) + if h.Restarts(c, counts) && key == h.key then 1 else 0
  {
    if h.Restarts(c, counts) {
      RestartsOn(trace, Did(DeletePod(h.key, h.pod.value.uid, false), h.deleteErr), key);
    } else {
      QuietAdds(trace, h.ActLog(c, infos, counts), key);
    }
  }

  lemma CountsFollow(c: Config, h: Handling, counts: map<string, nat>, key: string)
    requires !h.kind.Deleted?
    ensures CountOf(h.Counts(c, counts), key) ==
              if h.Stores(c) && h.Ready() && key == h.key then 0
              else CountOf(counts, key) + if h.Restarts(c, counts) && key == h.key then 1 else 0
    ensures h.Restarts(c, counts) ==> !h.Ready() && CountOf(counts, h.key) < MAX_CRASH_LOOP_RETRY
  {
  }

  lemma HandlingIsCounted(c: Config, h: Handling, infos: map<string, PodInfo>, counts: map<string, nat>, trace: seq<Event>, key: string)
    requires Counted(counts, trace, key)
    ensures Counted(h.Counts(c, counts), trace + h.Log(c, infos, counts), key)
  {
    if h.kind.Deleted? {
      DeletedIsCounted(c, h, infos, counts, trace, key);
    } else {
      RecordingCounts(c, h, trace, key);
      ActingCounts(c, h, infos, counts, trace + h.ReadLog() + h.RecordLog(c), key);
      Regroup(trace, h.ReadLog(), h.RecordLog(c));
      Regroup(trace, h.ReadLog() + h.RecordLog(c), h.ActLog(c, infos, counts));
      CountsFollow(c, h, counts, key);
    }
  }

  // ---------------------------------------------------------------- what a handled event starts

  lemma ReadyIff(pod: Pod)
    ensures IsReady(pod) <==> SaysReady(pod)
  {
    if i :| 0 <= i < |pod.conditions| && IsLastOfKind(pod.conditions, READY, i) && pod.conditions[i].isTrue {
      assert pod.conditions[i] == Condition("Ready", true);
    }
    if i :| 0 <= i < |pod.conditions| && pod.conditions[i] == Condition("Ready", true) &&
            forall k :: i < k < |pod.conditions| ==> pod.conditions[k].kind != "Ready" {
      assert IsLastOfKind(pod.conditions, READY, i);
    }
  }

  /** One of the four taints on which pods are cleaned up. */
  predicate IsCutOff(c: Config, node: Node) {
    || IsUnreachable(node, "NoSchedule") || IsUnreachable(node, "NoExecute")
    || HasKeyEffect(node, c.podmonTaint, "NoSchedule") || HasKeyEffect(node, c.driverPodTaint, "NoSchedule")
  }

  /** The event led to reading both the pod and its node. */
  predicate ReadsBoth(h: Handling) {
    !h.kind.Deleted? && h.pod.Some? && h.pod.value.nodeName != "" && h.node.Some?
  }

  /** A pod that is ready, or was modified, is looked at more closely, and found to have no volumes. */
  predicate IsVolumeless(c: Config, h: Handling)
    requires h.pod.Some?
  {
    (SaysReady(h.pod.value) || h.kind.Modified?) && c.ignoreVolumeless && h.pvcCount == 0
  }

  /** A pod that is not ready was read, and its node with one of the four taints. */
  predicate NeedsCleanup(c: Config, h: Handling) {
    ReadsBoth(h) && !SaysReady(h.pod.value) && IsCutOff(c, h.node.value) && !IsVolumeless(c, h)
  }

  /** A pod in a crash loop was read, and its node with none of them; and the limit is not reached. */
  predicate MayRestart(c: Config, h: Handling, counts: map<string, nat>) {
    && ReadsBoth(h) && !SaysReady(h.pod.value) && !IsCutOff(c, h.node.value) && !IsVolumeless(c, h)
    && CrashLoops(h.pod.value) && (h.key in counts ==> counts[h.key] < 5)
  }

  /** A pod that is ready, or was modified, was read with its node, and is not ignored for want of volumes. */
  predicate IsToBeRecorded(c: Config, h: Handling) {
    ReadsBoth(h) && (SaysReady(h.pod.value) || h.kind.Modified?) && !(c.ignoreVolumeless && h.pvcCount == 0)
  }

  lemma HandlingMeaning(c: Config, h: Handling, counts: map<string, nat>)
    ensures h.Spawns(c) <==> NeedsCleanup(c, h)
    ensures h.Restarts(c, counts) <==> MayRestart(c, h, counts)
    ensures h.Stores(c) <==> IsToBeRecorded(c, h)
  {
    if h.pod.Some? { ReadyIff(h.pod.value); }
  }

  /** What one event does to the records, the restart counters and the node UIDs. */
  lemma EventChangesTables(c: Config, h: Handling, infos: map<string, PodInfo>, counts: map<string, nat>, uids: map<string, string>)
    requires h.Answered()
    ensures h.Infos(c, infos) == if h.kind.Deleted? then infos - {h.key}
                                 else if IsToBeRecorded(c, h)
                                 then infos[h.key := PodInfo(h.key, h.node.value, h.pod.value.uid, ["default"], h.pod.value.affinity)]
                                 else infos
    ensures h.Counts(c, counts) == if h.kind.Deleted? || (IsToBeRecorded(c, h) && SaysReady(h.pod.value)) then counts - {h.key}
                                   else if MayRestart(c, h, counts) then counts[h.key := CountOf(counts, h.key) + 1]
                                   else counts
    ensures ReadsBoth(h) ==> UidOf(h.UIDs(uids), h.node.value.name) == h.node.value.uid
    ensures forall name :: !(ReadsBoth(h) && name == h.node.value.name) ==> UidOf(h.UIDs(uids), name) == UidOf(uids, name)
  {
    HandlingMeaning(c, h, counts);
    if h.pod.Some? { ReadyIff(h.pod.value); }
  }

  /** What an event starts or asks for: a clean-up of the pod exactly if it needs one, a graceful delete exactly if it may be
      restarted, and nothing else. */
  lemma EventActs(c: Config, h: Handling, infos: map<string, PodInfo>, counts: map<string, nat>)
    requires h.Answered()
    ensures h.Spawned(c, infos).Some? <==> NeedsCleanup(c, h)
    ensures (exists e :: e in h.Log(c, infos, counts) && e.CleanupSpawned?) <==> NeedsCleanup(c, h)
    ensures (exists e :: e in h.Log(c, infos, counts) && e.Did?) <==> MayRestart(c, h, counts)
    ensures forall e :: e in h.Log(c, infos, counts) && e.Did? ==> e.call == DeletePod(h.key, h.pod.value.uid, false)
  {
    HandlingMeaning(c, h, counts);
    var log, act := h.Log(c, infos, counts), h.ActLog(c, infos, counts);
    assert h.kind.Deleted? || log == h.ReadLog() + h.RecordLog(c) + act;
    assert forall e :: e in log && (e.Did? || e.CleanupSpawned?) ==> e in act;
    if h.Spawns(c) || h.Restarts(c, counts) { assert act[0] in log; }
  }

  /** The flags of a clean-up say what its pod's node was read with: at least one of the four taints. */
  predicate FlagsSay(c: Config, job: ControllerCleanup.Job, node: Node) {
    && (job.taintnoexec <==> IsUnreachable(node, "NoExecute"))
    && (job.taintpodmon <==> HasKeyEffect(node, c.podmonTaint, "NoSchedule") || HasKeyEffect(node, c.driverPodTaint, "NoSchedule"))
    && IsCutOff(c, node) && (job.node == node || job.node.csiNodeID != "")
  }

  /** The clean-up was started for a pod that was read as not ready, on a node that was read with the taints its flags
      tell of. */
  ghost predicate JobJustified(c: Config, trace: seq<Event>, job: ControllerCleanup.Job) {
    && job.config == c && !SaysReady(job.pod)
    && PodRead(job.pod.namespace + "/" + job.pod.name, Some(job.pod)) in trace
    && CleanupSpawned(job.pod, job.node, job.taintnoexec, job.taintpodmon) in trace
    && exists node: Node :: NodeRead(job.pod.nodeName, Some(node)) in trace && node.name == job.pod.nodeName && FlagsSay(c, job, node)
  }

  /** A clean-up is started only for the pod instance that was just read, while it is not ready and its node has one of
      the four taints. */
  lemma SpawnIsJustified(c: Config, h: Handling, infos: map<string, PodInfo>, counts: map<string, nat>)
    requires h.Answered() && h.Spawns(c)
    ensures JobJustified(c, h.Log(c, infos, counts), h.Spawned(c, infos).value)
  {
    var log := h.Log(c, infos, counts);
    HandlingMeaning(c, h, counts);
    assert log[0] == PodRead(h.key, h.pod) && log[1] == NodeRead(h.pod.value.nodeName, h.node);
    assert log == h.ReadLog() + h.RecordLog(c) + h.ActLog(c, infos, counts);
    assert h.ActLog(c, infos, counts)[0] in log;
    assert NodeRead(h.pod.value.nodeName, Some(h.node.value)) in log;
    assert FlagsSay(c, h.Spawned(c, infos).value, h.node.value);
  }

  /** The recorded node stands in for the one just read exactly when the event stored no record of its own: after a
      Modified event a clean-up always gets the node just read, with or without a CSI node ID. */
  lemma RecordedNodeStandsIn(c: Config, h: Handling, infos: map<string, PodInfo>)
    requires h.Spawns(c)
    ensures h.kind.Modified? ==> h.Target(c, infos) == h.node.value
    ensures h.Target(c, infos) != h.node.value <==>
              !h.kind.Modified? && h.key in infos && infos[h.key].node.csiNodeID != "" && infos[h.key].node != h.node.value
  {
    assert h.Stores(c) <==> h.kind.Modified?;
  }

  /** Reading a node counts as one more announcement of it in the node UID table. */
  lemma ObservingIsANodeEvent(h: Handling, uids: map<string, string>, name: string)
    requires h.Observed()
    ensures UidOf(h.UIDs(uids), name) == UidOf(Recorded(uids, NodeEvent(Modified, h.pod.value.nodeName, h.node.value.uid)), name)
  {
  }
}
