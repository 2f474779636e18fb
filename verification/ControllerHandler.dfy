/** The controller's watch handler: it keeps the records, starts clean-ups, and restarts pods in a crash loop. */
module ControllerHandler {
  import opened Kube
  import opened World
  import opened Monitor
  import opened ControllerCleanup

  const MAX_CRASH_LOOP_RETRY := 5
  const UNREACHABLE := "node.kubernetes.io/unreachable"
  const READY := "Ready"
  const CRASH_LOOP := "CrashLoopBackOff"
  const DEFAULT_ARRAY := "default"

  // ---------------------------------------------------------------- a pod's status

  /** Condition i is the pod's last one of its kind. */
  predicate IsLastOfKind(conditions: seq<Condition>, kind: string, i: int) {
    && 0 <= i < |conditions| && conditions[i].kind == kind
    && forall j :: i < j < |conditions| ==> conditions[j].kind != kind
  }

  /** The last Ready condition decides; a pod without one is not ready. */
  predicate IsReady(pod: Pod) {
    exists i :: 0 <= i < |pod.conditions| && IsLastOfKind(pod.conditions, READY, i) && pod.conditions[i].isTrue
  }

  predicate InCrashLoop(pod: Pod) {
    exists i :: 0 <= i < |pod.containers| && pod.containers[i].waitingReason == Some(CRASH_LOOP)
  }

  method PodStatus(pod: Pod) returns (ready: bool)
    ensures ready <==> IsReady(pod)
  {
    ready := false;
    ghost var last := -1;
    for i := 0 to |pod.conditions|
      invariant -1 <= last < i
      invariant forall j :: last < j < i ==> pod.conditions[j].kind != READY
      invariant if last == -1 then !ready else pod.conditions[last].kind == READY && ready == pod.conditions[last].isTrue
    {
      if pod.conditions[i].kind == READY {
        ready := pod.conditions[i].isTrue;
        last := i;
      }
    }
    assert last != -1 ==> IsLastOfKind(pod.conditions, READY, last);
  }

  method FindCrashLoop(pod: Pod) returns (found: bool)
    ensures found <==> InCrashLoop(pod)
  {
    found := false;
    for i := 0 to |pod.containers|
      invariant found <==> exists j :: 0 <= j < i && pod.containers[j].waitingReason == Some(CRASH_LOOP)
    {
      if pod.containers[i].waitingReason == Some(CRASH_LOOP) { found := true; }
    }
  }

  // ---------------------------------------------------------------- one event

  function CountOf(counts: map<string, nat>, key: string): nat {
    if key in counts then counts[key] else 0
  }

  /** An event of the pod instance uid, and what was answered on the way; what was not asked is arbitrary. The claim count is the number of
      volumes read, up to the first that failed. */
  datatype Handling = Handling(kind: WatchType, key: string, uid: string, pod: Option<Pod>, node: Option<Node>,
                               pvs: Result<seq<PersistentVolume>>, pvcCount: nat, deleteErr: Failure) {

    /** The pod and its node were both read. */
    predicate Observed() {
      !kind.Deleted? && pod.Some? && pod.value.nodeName != "" && node.Some?
    }

    predicate Ready() { Observed() && IsReady(pod.value) }

    predicate Looks() { Observed() && (IsReady(pod.value) || kind.Modified?) }

    /** The event ends with the discovery that the pod has no volumes. */
    predicate Stops(c: Config) { Looks() && c.ignoreVolumeless && pvcCount == 0 }

    predicate Stores(c: Config) { Looks() && !Stops(c) }

    predicate Tainted(c: Config)
      requires node.Some?
    {
      || HasTaint(node.value.taints, UNREACHABLE, NO_SCHEDULE) || HasTaint(node.value.taints, UNREACHABLE, NO_EXECUTE)
      || PodmonTainted(c)
    }

    predicate PodmonTainted(c: Config)
      requires node.Some?
    {
      HasTaint(node.value.taints, c.podmonTaint, NO_SCHEDULE) || HasTaint(node.value.taints, c.driverPodTaint, NO_SCHEDULE)
    }

    predicate Spawns(c: Config) { Observed() && !Stops(c) && !Ready() && Tainted(c) }

    predicate Restarts(c: Config, counts: map<string, nat>) {
      && Observed() && !Stops(c) && !Ready() && !Tainted(c)
      && InCrashLoop(pod.value) && CountOf(counts, key) < MAX_CRASH_LOOP_RETRY
    }

    function Info(): PodInfo
      requires Observed()
    {
      PodInfo(key, node.value, pod.value.uid, [DEFAULT_ARRAY], pod.value.affinity)
    }

    function Infos(c: Config, infos: map<string, PodInfo>): map<string, PodInfo> {
      if kind.Deleted? then infos - {key} else if Stores(c) then infos[key := Info()] else infos
    }

    function Counts(c: Config, counts: map<string, nat>): map<string, nat> {
      if kind.Deleted? || (Stores(c) && Ready()) then counts - {key}
      else if Restarts(c, counts) then counts[key := CountOf(counts, key) + 1]
      else counts
    }

    function UIDs(uids: map<string, string>): map<string, string> {
      if Observed() && UidOf(uids, pod.value.nodeName) != node.value.uid then uids[pod.value.nodeName := node.value.uid] else uids
    }

    /** The node a clean-up is started on: the recorded one, if it has a CSI node ID, else the one just read. */
    function Target(c: Config, infos: map<string, PodInfo>): Node
      requires Observed()
    {
      var recorded := Infos(c, infos);
      if key in recorded && recorded[key].node.csiNodeID != "" then recorded[key].node else node.value
    }

    /** The clean-up that is started, if any. */
    function Spawned(c: Config, infos: map<string, PodInfo>): Option<Job> {
      if Spawns(c) then
        Some(Job(c, pod.value, Target(c, infos), HasTaint(node.value.taints, UNREACHABLE, NO_EXECUTE), PodmonTainted(c)))
      else None
    }

    function ReadLog(): seq<Event> {
      if pod.Some? && pod.value.nodeName != "" then [PodRead(key, pod), NodeRead(pod.value.nodeName, node)] else [PodRead(key, pod)]
    }

    function RecordLog(c: Config): seq<Event> {
      if Stores(c) && Ready() then [PVsRead(key, pvs, pvcCount), ReadyStored(key)] else if Looks() then [PVsRead(key, pvs, pvcCount)] else []
    }

    function ActLog(c: Config, infos: map<string, PodInfo>, counts: map<string, nat>): seq<Event> {
      if Spawns(c) then
        var job := Spawned(c, infos).value;
        [CleanupSpawned(job.pod, job.node, job.taintnoexec, job.taintpodmon)]
      else if Restarts(c, counts) then [Did(DeletePod(key, pod.value.uid, false), deleteErr)]
      else []
    }

    function Log(c: Config, infos: map<string, PodInfo>, counts: map<string, nat>): seq<Event> {
      if kind.Deleted? then [DeleteObserved(key, uid)] else ReadLog() + RecordLog(c) + ActLog(c, infos, counts)
    }

    /** What was read fits what was asked. */
    predicate Answered() {
      && (pod.Some? ==> KeyOf(pod.value) == key)
      && (Observed() ==> node.value.name == pod.value.nodeName)
      && (pvs.Ok? ==> pvcCount == |pvs.value|)
    }
  }

  /** The default array's ID and how many volumes were read; an error on the way is dropped. */
  method PodToArrayIDs(world: World, podKey: string)
    returns (arrayIDs: seq<string>, pvcCount: nat, ghost pvs: Result<seq<PersistentVolume>>)
    modifies world`trace
    ensures world.trace == old(world.trace) + [PVsRead(podKey, pvs, pvcCount)]
    ensures arrayIDs == [DEFAULT_ARRAY] && (pvs.Ok? ==> pvcCount == |pvs.value|)
  {
    var read, soFar := world.ReadPVs(podKey);
    pvs := read;
    arrayIDs, pvcCount := [DEFAULT_ARRAY], soFar;
  }

  /** Handles an event of a pod that is not the driver's; spawned is the clean-up that is to run on its own. */
  method ControllerModePodHandler(cm: PodMonitor, world: World, kind: WatchType, namespace: string, name: string, uid: string)
    returns (ok: bool, spawned: Option<Job>, ghost h: Handling)
    modifies cm, world`trace
    ensures h.kind == kind && h.key == PodKey(namespace, name) && h.uid == uid && h.Answered()
    ensures cm.infos == h.Infos(cm.config, old(cm.infos))
    ensures cm.crashCounts == h.Counts(cm.config, old(cm.crashCounts))
    ensures cm.nodeUIDs == h.UIDs(old(cm.nodeUIDs))
    ensures world.trace == old(world.trace) + h.Log(cm.config, old(cm.infos), old(cm.crashCounts))
    ensures ok <==> kind.Deleted? || h.pod.Some?
    ensures spawned == h.Spawned(cm.config, old(cm.infos))
  {
    var podKey := PodKey(namespace, name);
    h := Handling(kind, podKey, uid, None, None, Err(Error("", false)), 0, None);
    ok, spawned := true, None;
    if kind.Deleted? {
      cm.infos, cm.crashCounts := cm.infos - {podKey}, cm.crashCounts - {podKey};
      world.Note(DeleteObserved(podKey, uid));
      return;
    }
    var read := world.ReadPod(namespace, name);
    h := h.(pod := read);
    if read == None { return false, None, h; }
    var pod := read.value;
    if pod.nodeName == "" { return; }
    var nodeRead := world.ReadNode(pod.nodeName);
    h := h.(node := nodeRead);
    if nodeRead == None { return; }
    ghost var t0, asked := old(world.trace), h.ReadLog();
    assert world.trace == t0 + asked;
    spawned, h := HandleObserved(cm, world, kind, pod, nodeRead.value, h);
    assert world.trace == t0 + h.Log(cm.config, old(cm.infos), old(cm.crashCounts)) by {
      Regroup(t0, asked, h.RecordLog(cm.config));
      Regroup(t0, asked + h.RecordLog(cm.config), h.ActLog(cm.config, old(cm.infos), old(cm.crashCounts)));
    }
  }

  /** The handling of a pod that was read together with its node. */
  method HandleObserved(cm: PodMonitor, world: World, kind: WatchType, pod: Pod, node: Node, ghost h0: Handling)
    returns (spawned: Option<Job>, ghost h: Handling)
    requires h0.kind == kind && h0.Observed() && h0.Answered() && h0.pod == Some(pod) && h0.node == Some(node)
    modifies cm, world`trace
    ensures spawned == h.Spawned(cm.config, old(cm.infos))
    ensures h == h0.(pvs := h.pvs, pvcCount := h.pvcCount, deleteErr := h.deleteErr) && h.Answered()
    ensures cm.infos == h.Infos(cm.config, old(cm.infos))
    ensures cm.crashCounts == h.Counts(cm.config, old(cm.crashCounts))
    ensures cm.nodeUIDs == h.UIDs(old(cm.nodeUIDs))
    ensures world.trace == old(world.trace) + h.RecordLog(cm.config) + h.ActLog(cm.config, old(cm.infos), old(cm.crashCounts))
  {
    if cm.GetNodeUID(pod.nodeName) != node.uid { cm.StoreNodeUID(pod.nodeName, node.uid); }
    var ready := PodStatus(pod);
    var stop;
    stop, h := RecordPod(cm, world, kind, pod, node, ready, h0);
    spawned := None;
    if !stop { spawned, h := ActOnPod(cm, world, pod, node, ready, h, old(cm.infos)); }
  }

  /** A pod that is ready, or was modified, is recorded if it has volumes; a ready one ends its crash loop. */
  method RecordPod(cm: PodMonitor, world: World, kind: WatchType, pod: Pod, node: Node, ready: bool, ghost h0: Handling)
    returns (stop: bool, ghost h: Handling)
    requires h0.kind == kind && h0.Observed() && h0.Answered() && h0.pod == Some(pod) && h0.node == Some(node) && ready == IsReady(pod)
    modifies cm`infos, cm`crashCounts, world`trace
    ensures h == h0.(pvs := h.pvs, pvcCount := h.pvcCount) && h.Answered() && stop == h.Stops(cm.config)
    ensures cm.infos == h.Infos(cm.config, old(cm.infos))
    ensures cm.crashCounts == if h.Stores(cm.config) && ready then old(cm.crashCounts) - {h.key} else old(cm.crashCounts)
    ensures world.trace == old(world.trace) + h.RecordLog(cm.config)
  {
    h, stop := h0, false;
    var podKey := KeyOf(pod);
    if ready || kind.Modified? {
      var arrayIDs, pvcCount, pvs := PodToArrayIDs(world, podKey);
      h := h.(pvs := pvs, pvcCount := pvcCount);
      if cm.config.ignoreVolumeless && pvcCount == 0 { return true, h; }
      cm.infos := cm.infos[podKey := PodInfo(podKey, node, pod.uid, arrayIDs, pod.affinity)];
      if ready {
        cm.crashCounts := cm.crashCounts - {podKey};
        world.Note(ReadyStored(podKey));
      }
    }
  }

  /** On a tainted node, a pod that is not ready is cleaned up; on any other, one in a crash loop is restarted, up to
      the limit. */
  method ActOnPod(cm: PodMonitor, world: World, pod: Pod, node0: Node, ready: bool, ghost h0: Handling, ghost infos: map<string, PodInfo>)
    returns (spawned: Option<Job>, ghost h: Handling)
    requires h0.Observed() && h0.Answered() && h0.pod == Some(pod) && h0.node == Some(node0) && ready == IsReady(pod)
    requires !h0.Stops(cm.config) && cm.infos == h0.Infos(cm.config, infos)
    modifies cm`crashCounts, world`trace
    ensures h == h0.(deleteErr := h.deleteErr) && spawned == h.Spawned(cm.config, infos)
    ensures cm.crashCounts == if h.Restarts(cm.config, old(cm.crashCounts)) then old(cm.crashCounts)[h.key := CountOf(old(cm.crashCounts), h.key) + 1]
                              else old(cm.crashCounts)
    ensures world.trace == old(world.trace) + h.ActLog(cm.config, infos, old(cm.crashCounts))
  {
    h, spawned := h0, None;
    var node, podKey := node0, KeyOf(pod);
    var taintnosched := NodeHasTaint(node, UNREACHABLE, NO_SCHEDULE);
    var taintnoexec := NodeHasTaint(node, UNREACHABLE, NO_EXECUTE);
    var taintpodmon := NodeHasTaint(node, cm.config.podmonTaint, NO_SCHEDULE);
    if !taintpodmon { taintpodmon := NodeHasTaint(node, cm.config.driverPodTaint, NO_SCHEDULE); }
    var crashLoopBackOff := FindCrashLoop(pod);
    if (taintnoexec || taintnosched || taintpodmon) && !ready {
      if podKey in cm.infos && cm.infos[podKey].node.csiNodeID != "" { node := cm.infos[podKey].node; }
      spawned := Some(Job(cm.config, pod, node, taintnoexec, taintpodmon));
      world.Note(CleanupSpawned(pod, node, taintnoexec, taintpodmon));
    } else if !ready && crashLoopBackOff {
      var count := if podKey in cm.crashCounts then cm.crashCounts[podKey] else 0;
      if count < MAX_CRASH_LOOP_RETRY {
        var err := world.Do(DeletePod(podKey, pod.uid, false));
        h := h.(deleteErr := err);
        cm.crashCounts := cm.crashCounts[podKey := count + 1];
      }
    }
  }

  // ---------------------------------------------------------------- seen from other goroutines

  /** An event leaves every record under its own key. */
  lemma RecordsStayKeyed(c: Config, h: Handling, infos: map<string, PodInfo>)
    requires KeyedInfos(infos) && IsPodKey(h.key)
    ensures KeyedInfos(h.Infos(c, infos))
  {
  }

  /** The records and the node UIDs. */
  datatype Tables = Tables(infos: map<string, PodInfo>, uids: map<string, string>)

  /** What may change them: a handled pod event, a node event, or the end of a clean-up that deleted its pod. */
  datatype Change =
    | ByHandler(handling: Handling)
    | ByNode(event: NodeEvent)
    | ByCleanup(podKey: string)

  function Changed(c: Config, t: Tables, ch: Change): Tables {
    match ch
    case ByHandler(h) => Tables(h.Infos(c, t.infos), h.UIDs(t.uids))
    case ByNode(e) => t.(uids := Recorded(t.uids, e))
    case ByCleanup(podKey) => t.(infos := t.infos - {podKey})
  }

  /** A change that can happen. (Names of the API server hold no slash.) */
  predicate Fair(ch: Change) {
    ch.ByHandler? ==> ch.handling.Answered() && IsPodKey(ch.handling.key)
  }

  /** The tables through a number of changes: past[i] are those after the first i. */
  datatype Chronicle = Chronicle(past: seq<Tables>, changes: seq<Change>) {
    function Then(c: Config, ch: Change): Chronicle
      requires past != []
    {
      Chronicle(past + [Changed(c, past[|past| - 1], ch)], changes + [ch])
    }

    predicate Continues(earlier: Chronicle) {
      earlier.past <= past && earlier.changes <= changes
    }
  }

  function Beginning(t: Tables): Chronicle { Chronicle([t], []) }

  /** Each change is fair and made the tables what they are next. */
  ghost predicate Told(c: Config, r: Chronicle)
    decreases |r.changes|
  {
    && |r.past| == |r.changes| + 1
    && (r.changes == [] ||
        var n := |r.changes|;
        && Told(c, Chronicle(r.past[..n], r.changes[..n - 1]))
        && Fair(r.changes[n - 1]) && r.past[n] == Changed(c, r.past[n - 1], r.changes[n - 1]))
  }

  /** The chronicle ends with the present tables. */
  ghost predicate Follows(c: Config, r: Chronicle, infos: map<string, PodInfo>, uids: map<string, string>) {
    KeyedInfos(infos) && Told(c, r) && r.past[|r.past| - 1] == Tables(infos, uids)
  }

  lemma FollowsOn(c: Config, r: Chronicle, infos: map<string, PodInfo>, uids: map<string, string>, ch: Change)
    requires Follows(c, r, infos, uids) && Fair(ch)
    ensures var t := Changed(c, Tables(infos, uids), ch); Follows(c, r.Then(c, ch), t.infos, t.uids)
    ensures r.Then(c, ch).Continues(r)
  {
    var r' := r.Then(c, ch);
    assert r'.past[..|r.past|] == r.past && r'.changes[..|r.changes|] == r.changes;
    if ch.ByHandler? { RecordsStayKeyed(c, ch.handling, infos); }
  }

  /** Any one change. */
  method SomeChange(cm: PodMonitor, ghost r: Chronicle) returns (ghost ch: Change)
    requires Follows(cm.config, r, cm.infos, cm.nodeUIDs)
    modifies cm`infos, cm`nodeUIDs
    ensures Follows(cm.config, r.Then(cm.config, ch), cm.infos, cm.nodeUIDs) && r.Then(cm.config, ch).Continues(r)
  {
    var h: Handling, e: NodeEvent, podKey: string, kind: int := *, *, *, *;
    if kind == 0 && h.Answered() && IsPodKey(h.key) {
      ch := ByHandler(h);
      cm.infos, cm.nodeUIDs := h.Infos(cm.config, cm.infos), h.UIDs(cm.nodeUIDs);
    } else if kind == 1 {
      ch := ByNode(e);
      cm.nodeUIDs := Recorded(cm.nodeUIDs, e);
    } else {
      ch := ByCleanup(podKey);
      cm.infos := cm.infos - {podKey};
    }
    FollowsOn(cm.config, r, old(cm.infos), old(cm.nodeUIDs), ch);
  }

  /** What the watch handlers and the clean-ups of other goroutines do meanwhile to the records and to the node UIDs:
      any number of changes. */
  method WatchEvents(cm: PodMonitor, ghost before: Chronicle) returns (ghost r: Chronicle)
    requires Follows(cm.config, before, cm.infos, cm.nodeUIDs)
    modifies cm`infos, cm`nodeUIDs
    ensures r.Continues(before) && Follows(cm.config, r, cm.infos, cm.nodeUIDs)
  {
    r := before;
    var n: int := *;
    while 0 < n
      invariant r.Continues(before) && Follows(cm.config, r, cm.infos, cm.nodeUIDs)
    {
      n := n - 1;
      ghost var ch := SomeChange(cm, r);
      r := r.Then(cm.config, ch);
    }
  }

  /** Time for other goroutines, unless there is none. */
  method Yield(cm: PodMonitor, alone: bool, ghost before: Chronicle) returns (ghost r: Chronicle)
    requires Follows(cm.config, before, cm.infos, cm.nodeUIDs)
    modifies cm`infos, cm`nodeUIDs
    ensures Follows(cm.config, r, cm.infos, cm.nodeUIDs) && r.Continues(before)
    ensures alone ==> r == before && cm.infos == old(cm.infos) && cm.nodeUIDs == old(cm.nodeUIDs)
  {
    r := before;
    if !alone { r := WatchEvents(cm, before); }
  }
}
