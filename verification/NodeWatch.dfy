/** The node's watch handler, and whole runs of watch events and sweeps. */
module NodeWatch {
  import opened Kube
  import opened World
  import Monitor
  import opened NodeCleanup
  import opened NodeSweep
  import opened NodeSafety
  import opened Promises

  // ---------------------------------------------------------------- looking for a pod's volumes

  function VolumesDir(podUID: string): string { "/var/lib/kubelet/pods/" + podUID + "/volumes/kubernetes.io~csi" }

  function DevicesDir(podUID: string): string { "/var/lib/kubelet/pods/" + podUID + "/volumeDevices/kubernetes.io~csi" }

  /** The directory entries whose volume could be read, in order. */
  function Found(dir: string, tail: string, entries: seq<string>, answers: seq<Result<string>>): seq<VolumeInfo>
    requires |entries| == |answers|
  {
    if entries == [] then []
    else
      var n := |entries| - 1;
      var found := Found(dir, tail, entries[..n], answers[..n]);
      match answers[n]
      case Ok(handle) => found + [VolumeInfo(dir + "/" + entries[n] + tail, handle, entries[n])]
      case Err(_) => found
  }

  function PVReads(entries: seq<string>, answers: seq<Result<string>>): seq<Event>
    requires |entries| == |answers|
  {
    seq(|entries|, i requires 0 <= i < |entries| => PVRead(entries[i], answers[i]))
  }

  /** Every volume found comes from an entry that could be read, and every such entry is found, at most once each. */
  lemma {:induction false} FoundMeaning(dir: string, tail: string, entries: seq<string>, answers: seq<Result<string>>, v: VolumeInfo)
    requires |entries| == |answers|
    ensures v in Found(dir, tail, entries, answers) <==>
              exists i :: 0 <= i < |entries| && answers[i].Ok? &&
                          v == VolumeInfo(dir + "/" + entries[i] + tail, answers[i].value, entries[i])
    ensures |Found(dir, tail, entries, answers)| <= |entries|
  {
    if entries != [] {
      var n := |entries| - 1;
      FoundMeaning(dir, tail, entries[..n], answers[..n], v);
      if v in Found(dir, tail, entries[..n], answers[..n]) {
        var i :| 0 <= i < n && answers[..n][i].Ok? &&
                 v == VolumeInfo(dir + "/" + entries[..n][i] + tail, answers[..n][i].value, entries[..n][i]);
        assert answers[i].Ok? && v == VolumeInfo(dir + "/" + entries[i] + tail, answers[i].value, entries[i]);
      }
      if i :| 0 <= i < |entries| && answers[i].Ok? && v == VolumeInfo(dir + "/" + entries[i] + tail, answers[i].value, entries[i]) {
        if i < n {
          assert answers[..n][i].Ok? &&
                 v == VolumeInfo(dir + "/" + entries[..n][i] + tail, answers[..n][i].value, entries[..n][i]);
        }
      }
    }
  }

  /** Either scan: reads the volume behind each entry and leaves out those that cannot be read. */
  method ScanEntries(world: World, dir: string, tail: string, entries: seq<string>)
    returns (infos: seq<VolumeInfo>, ghost answers: seq<Result<string>>)
    modifies world`trace
    ensures |answers| == |entries| && infos == Found(dir, tail, entries, answers)
    ensures world.trace == old(world.trace) + PVReads(entries, answers)
  {
    infos, answers := [], [];
    for i := 0 to |entries|
      invariant |answers| == i && infos == Found(dir, tail, entries[..i], answers)
      invariant world.trace == old(world.trace) + PVReads(entries[..i], answers)
    {
      var handle := world.ReadPV(entries[i]);
      if handle.Ok? { infos := infos + [VolumeInfo(dir + "/" + entries[i] + tail, handle.value, entries[i])]; }
      assert entries[..i + 1][..i] == entries[..i] && (answers + [handle])[..i] == answers;
      assert PVReads(entries[..i + 1], answers + [handle]) == PVReads(entries[..i], answers) + [PVRead(entries[i], handle)];
      answers := answers + [handle];
    }
    assert entries[..|entries|] == entries;
  }

  // ---------------------------------------------------------------- one watch event

  type Listing = Result<seq<string>>

  /** A directory that is not there has no entries. */
  function Entries(listing: Listing): seq<string> {
    match listing
    case Ok(entries) => entries
    case Err(_) => []
  }

  /** A listing that ends the handling of the event. */
  predicate Broken(listing: Listing) { listing.Err? && !listing.error.notExist }

  /** An event, what the two directories held, and what was answered on the way. */
  datatype Watch = Watch(kind: Monitor.WatchType, pod: Pod, volumes: Listing, devices: Listing,
                         volumeAnswers: seq<Result<string>>, deviceAnswers: seq<Result<string>>, node: Option<Node>) {

    predicate Concerns(c: NodeConfig) { pod.namespace != c.driverNamespace && pod.nodeName == c.nodeName }

    predicate Scans(c: NodeConfig) { Concerns(c) && (kind.Added? || kind.Modified?) }

    /** Each scan that took place was answered entry by entry. */
    predicate Answered() { |volumeAnswers| == |Entries(volumes)| && |deviceAnswers| == |Entries(devices)| }

    function Log(c: NodeConfig): seq<Event>
      requires Answered()
    {
      if Scans(c) then
        if Broken(volumes) then []
        else if Broken(devices) then PVReads(Entries(volumes), volumeAnswers)
        else PVReads(Entries(volumes), volumeAnswers) + PVReads(Entries(devices), deviceAnswers)
      else if Concerns(c) && kind.Deleted? then [NodeRead(c.nodeName, node)]
      else []
    }

    function Outcome(c: NodeConfig): Failure {
      if Scans(c) && Broken(volumes) then Some(volumes.error)
      else if Scans(c) && Broken(devices) then Some(devices.error)
      else None
    }

    function Info(): NodePodInfo
      requires Answered()
    {
      NodePodInfo(pod, pod.uid, Found(VolumesDir(pod.uid), "/mount", Entries(volumes), volumeAnswers),
                  Found(DevicesDir(pod.uid), "", Entries(devices), deviceAnswers))
    }

    /** What was found is recorded unless fewer mounts, or fewer devices, were found than are on record. */
    predicate Stores(c: NodeConfig, tracked: Tracked)
      requires Answered()
    {
      && Scans(c) && !Broken(volumes) && !Broken(devices)
      && (KeyOf(pod) in tracked ==> NoFewer(tracked[KeyOf(pod)], Info()))
    }

    /** A deleted pod is forgotten only while its node is known to be without the taint. */
    predicate Forgets(c: NodeConfig) {
      Concerns(c) && kind.Deleted? && node.Some? && !HasTaint(node.value.taints, c.podmonTaint, NO_SCHEDULE)
    }

    function After(c: NodeConfig, tracked: Tracked): Tracked
      requires Answered()
    {
      if Stores(c, tracked) then tracked[KeyOf(pod) := Info()]
      else if Forgets(c) then tracked - {KeyOf(pod)}
      else tracked
    }
  }

  predicate NoFewer(a: NodePodInfo, b: NodePodInfo) {
    |a.mounts| <= |b.mounts| && |a.devices| <= |b.devices|
  }

  method NodeModePodHandler(pm: NodePodMonitor, world: World, kind: Monitor.WatchType, pod: Pod, volumes: Listing, devices: Listing)
    returns (err: Failure, ghost w: Watch)
    modifies pm`podKeyMap, world`trace
    ensures w.kind == kind && w.pod == pod && w.volumes == volumes && w.devices == devices && w.Answered()
    ensures world.trace == old(world.trace) + w.Log(pm.config)
    ensures pm.podKeyMap == w.After(pm.config, old(pm.podKeyMap))
    ensures err == if kind !in {Monitor.Added, Monitor.Modified} || pod.namespace == pm.config.driverNamespace || pod.nodeName != pm.config.nodeName
                   then None
                   else if volumes.Err? && !volumes.error.notExist then Some(volumes.error)
                   else if devices.Err? && !devices.error.notExist then Some(devices.error) else None
  {
    w := Unanswered(kind, pod, volumes, devices);
    err := None;
    var podKey := KeyOf(pod);
    if pm.config.driverNamespace == pod.namespace || pm.config.nodeName != pod.nodeName { return; }
    if kind.Added? || kind.Modified? { err, w := RecordVolumes(pm, world, pod, volumes, devices, w); }
    if kind.Deleted? {
      var node := world.ReadNode(pm.config.nodeName);
      w := w.(node := node);
      if node.Some? {
        var tainted := Monitor.NodeHasTaint(node.value, pm.config.podmonTaint, NO_SCHEDULE);
        if !tainted { pm.podKeyMap := pm.podKeyMap - {podKey}; }
      }
    }
  }

  /** Looks for the pod's mounts and devices, and records them if there are no fewer than on record. */
  method RecordVolumes(pm: NodePodMonitor, world: World, pod: Pod, volumes: Listing, devices: Listing, ghost w0: Watch)
    returns (err: Failure, ghost w: Watch)
    requires w0.pod == pod && w0.volumes == volumes && w0.devices == devices && w0.Answered() && w0.Scans(pm.config)
    modifies pm`podKeyMap, world`trace
    ensures w == w0.(volumeAnswers := w.volumeAnswers, deviceAnswers := w.deviceAnswers) && w.Answered()
    ensures world.trace == old(world.trace) + w.Log(pm.config)
    ensures pm.podKeyMap == w.After(pm.config, old(pm.podKeyMap))
    ensures err == w.Outcome(pm.config)
  {
    ghost var t0 := world.trace;
    err, w := None, w0;
    var podKey := KeyOf(pod);
    var existingVolumeCount, existingDeviceCount := 0, 0;
    if podKey in pm.podKeyMap {
      existingVolumeCount, existingDeviceCount := |pm.podKeyMap[podKey].mounts|, |pm.podKeyMap[podKey].devices|;
    }
    if volumes.Err? && !volumes.error.notExist { return Some(volumes.error), w; }
    var mounts, volumeAnswers := ScanEntries(world, VolumesDir(pod.uid), "/mount", if volumes.Ok? then volumes.value else []);
    w := w.(volumeAnswers := volumeAnswers);
    if devices.Err? && !devices.error.notExist { return Some(devices.error), w; }
    var blocks, deviceAnswers := ScanEntries(world, DevicesDir(pod.uid), "", if devices.Ok? then devices.value else []);
    w := w.(deviceAnswers := deviceAnswers);
    Regroup(t0, PVReads(Entries(volumes), volumeAnswers), PVReads(Entries(devices), deviceAnswers));
    if existingVolumeCount <= |mounts| && existingDeviceCount <= |blocks| {
      pm.podKeyMap := pm.podKeyMap[podKey := NodePodInfo(pod, pod.uid, mounts, blocks)];
    }
  }

  /** The event before anything was asked. */
  ghost function Unanswered(kind: Monitor.WatchType, pod: Pod, volumes: Listing, devices: Listing): Watch {
    Watch(kind, pod, volumes, devices, NoAnswers(|Entries(volumes)|), NoAnswers(|Entries(devices)|), None)
  }

  ghost function NoAnswers(n: nat): seq<Result<string>> {
    seq(n, _ => Err(Error("", false)))
  }

  // ---------------------------------------------------------------- runs

  datatype Step =
    | Watched(watch: Watch)
    | Swept(scene: Scene, node: string, sweep: Sweep)

  /** What one watch event, or one sweep, does to the tracked pods. */
  ghost predicate StepDone(c: NodeConfig, before: Tracked, step: Step, after: Tracked) {
    match step
    case Watched(w) => w.Answered() && after == w.After(c, before)
    case Swept(scene, node, sw) => SweepRun(c, scene, node, before, sw) && after == Kept(before, sw.cleanings)
  }

  /** tables[i] is what is tracked before step i. */
  ghost predicate Run(c: NodeConfig, steps: seq<Step>, tables: seq<Tracked>) {
    && |tables| == |steps| + 1
    && tables[0] == map[]
    && forall i :: 0 <= i < |steps| ==> DoneAt(c, steps, tables, i)
  }

  ghost predicate DoneAt(c: NodeConfig, steps: seq<Step>, tables: seq<Tracked>, i: nat)
    requires i < |steps| && |tables| == |steps| + 1
  {
    StepDone(c, tables[i], steps[i], tables[i + 1])
  }

  lemma KeptUnchanged(tracked: Tracked, cleanings: seq<Cleaning>, key: string)
    requires key in Kept(tracked, cleanings)
    ensures key in tracked && Kept(tracked, cleanings)[key] == tracked[key]
  {
    KeptMeaning(tracked, cleanings, key);
  }

  /** The volume of entry i of a directory could be read, and m is what it gives. */
  predicate IsEntry(m: VolumeInfo, dir: string, tail: string, entries: seq<string>, answers: seq<Result<string>>, i: int) {
    0 <= i < |entries| == |answers| && answers[i] == Ok(m.volumeID) && entries[i] == m.pvName && m.path == dir + "/" + entries[i] + tail
  }

  /** What an event finds: one mount for each entry of the pod's volume directory whose volume could be read, and one
      device for each such entry of its device directory. */
  lemma FindsReadableEntries(w: Watch, m: VolumeInfo)
    requires w.Answered()
    ensures w.Info().pod == w.pod && w.Info().podUID == w.pod.uid
    ensures var dir := "/var/lib/kubelet/pods/" + w.pod.uid + "/volumes/kubernetes.io~csi";
            m in w.Info().mounts <==> w.volumes.Ok? && exists i :: IsEntry(m, dir, "/mount", w.volumes.value, w.volumeAnswers, i)
    ensures var dir := "/var/lib/kubelet/pods/" + w.pod.uid + "/volumeDevices/kubernetes.io~csi";
            m in w.Info().devices <==> w.devices.Ok? && exists i :: IsEntry(m, dir, "", w.devices.value, w.deviceAnswers, i)
  {
    FindsEntries(VolumesDir(w.pod.uid), "/mount", Entries(w.volumes), w.volumeAnswers, m);
    FindsEntries(DevicesDir(w.pod.uid), "", Entries(w.devices), w.deviceAnswers, m);
  }

  lemma FindsEntries(dir: string, tail: string, entries: seq<string>, answers: seq<Result<string>>, m: VolumeInfo)
    requires |entries| == |answers|
    ensures m in Found(dir, tail, entries, answers) <==> exists i :: IsEntry(m, dir, tail, entries, answers, i)
  {
    FoundMeaning(dir, tail, entries, answers, m);
    if i :| IsEntry(m, dir, tail, entries, answers, i) {
      assert m == VolumeInfo(dir + "/" + entries[i] + tail, answers[i].value, entries[i]);
    }
    if m in Found(dir, tail, entries, answers) {
      var i :| 0 <= i < |entries| && answers[i].Ok? && m == VolumeInfo(dir + "/" + entries[i] + tail, answers[i].value, entries[i]);
      assert IsEntry(m, dir, tail, entries, answers, i);
    }
  }

  /** An Added or Modified event of a pod of this node that is not the driver's, with both directories listed or not there,
      and neither fewer mounts nor fewer devices found than are on record. */
  predicate PutsOnRecord(c: NodeConfig, w: Watch, tracked: Tracked)
    requires w.Answered()
  {
    var key := w.pod.namespace + "/" + w.pod.name;
    && w.kind in {Monitor.Added, Monitor.Modified}
    && w.pod.namespace != c.driverNamespace && w.pod.nodeName == c.nodeName
    && (w.volumes.Ok? || w.volumes.error.notExist) && (w.devices.Ok? || w.devices.error.notExist)
    && (key in tracked ==> |tracked[key].mounts| <= |w.Info().mounts| && |tracked[key].devices| <= |w.Info().devices|)
  }

  lemma EventChangesRecords(c: NodeConfig, w: Watch, tracked: Tracked)
    requires w.Answered()
    ensures w.Stores(c, tracked) <==> PutsOnRecord(c, w, tracked)
    ensures w.After(c, tracked) == if PutsOnRecord(c, w, tracked) then tracked[w.pod.namespace + "/" + w.pod.name := w.Info()]
                                   else if IsReportedDeleted(c, w) then tracked - {w.pod.namespace + "/" + w.pod.name} else tracked
  {
  }

  /** As long as a pod stays tracked, neither its mounts nor its devices ever become fewer. */
  lemma {:induction false} CountsNeverShrink(c: NodeConfig, steps: seq<Step>, tables: seq<Tracked>, i: nat, j: nat, key: string)
    requires Run(c, steps, tables) && i <= j < |tables|
    requires forall k :: i <= k <= j ==> key in tables[k]
    ensures |tables[i][key].mounts| <= |tables[j][key].mounts| && |tables[i][key].devices| <= |tables[j][key].devices|
  {
    if i < j {
      CountsNeverShrink(c, steps, tables, i, j - 1, key);
      StepKeepsCounts(c, steps, tables, j - 1, key);
    }
  }

  lemma StepKeepsCounts(c: NodeConfig, steps: seq<Step>, tables: seq<Tracked>, i: nat, key: string)
    requires Run(c, steps, tables) && i < |steps|
    requires key in tables[i] && key in tables[i + 1]
    ensures NoFewer(tables[i][key], tables[i + 1][key])
  {
    assert DoneAt(c, steps, tables, i);
    if steps[i].Swept? { KeptUnchanged(tables[i], steps[i].sweep.cleanings, key); }
  }

  /** A sweep found no container of the pod running and the pod no longer present, and cleaned all its volumes. */
  ghost predicate CleanedBy(c: NodeConfig, scene: Scene, sw: Sweep, info: NodePodInfo, key: string) {
    exists i: nat, j: nat ::
      && VisitOf(sw.visits, key, i) && CleanedAs(sw.cleanings, key, j)
      && sw.visits[i].info == info && !Runs(info, scene)
      && |sw.visits[i].answers| == 2 && !IsSame(info, sw.visits[i].answers[1])
      && PodIsClean(c.driver, info, sw.cleanings[j].volumes)
  }

  /** The pod, of this node and not the driver's, was reported deleted while its node was read without the taint. */
  predicate IsReportedDeleted(c: NodeConfig, w: Watch) {
    && w.kind.Deleted? && w.pod.namespace != c.driverNamespace && w.pod.nodeName == c.nodeName
    && w.node.Some? && !HasKeyEffect(w.node.value, c.podmonTaint, "NoSchedule")
  }

  lemma CleanedWell(c: NodeConfig, scene: Scene, node: string, tracked: Tracked, sw: Sweep, key: string, j: nat)
    requires SweepRun(c, scene, node, tracked, sw) && key in tracked && CleanedAs(sw.cleanings, key, j)
    ensures CleanedBy(c, scene, sw, tracked[key], key)
  {
    CleanedPodsWereJudged(c, scene, node, tracked, sw, j);
    var i: nat :| VisitOf(sw.visits, key, i) && sw.visits[i].verdict == ToClean &&
                  FairVisit(c, scene, tracked, sw.visits[i]) && FairCleaning(c, sw.visits[i], sw.cleanings[j]);
    RunsIff(tracked[key], scene);
    PodIsCleanIffNothingBad(c.driver, tracked[key], c.maxRetries, sw.cleanings[j].volumes);
  }

  /** A pod stops being tracked exactly when it was reported deleted while its node was seen without the taint, or
      when a sweep cleaned it. */
  lemma LeavesOnlyForAReason(c: NodeConfig, steps: seq<Step>, tables: seq<Tracked>, i: nat, key: string)
    requires Run(c, steps, tables) && i < |steps| && key in tables[i]
    ensures key !in tables[i + 1] <==>
              match steps[i]
              case Watched(w) => IsReportedDeleted(c, w) && KeyOf(w.pod) == key
              case Swept(scene, _, sw) => CleanedBy(c, scene, sw, tables[i][key], key)
  {
    assert DoneAt(c, steps, tables, i);
    match steps[i] {
      case Watched(_) =>
      case Swept(scene, node, sw) =>
        OnlyCleanedPodsAreForgotten(c, scene, node, tables[i], sw, key);
        if j: nat :| CleanedAs(sw.cleanings, key, j) { CleanedWell(c, scene, node, tables[i], sw, key, j); }
    }
  }

  /** The record was written by step k, and stayed as it was up to step i. */
  ghost predicate StoredBy(c: NodeConfig, steps: seq<Step>, tables: seq<Tracked>, i: nat, key: string, k: nat)
    requires Run(c, steps, tables) && i < |tables| && k < i
  {
    && steps[k].Watched? && steps[k].watch.Answered() && PutsOnRecord(c, steps[k].watch, tables[k])
    && steps[k].watch.pod.namespace + "/" + steps[k].watch.pod.name == key
    && forall m :: k < m <= i ==> key in tables[m] && tables[m][key] == steps[k].watch.Info()
  }

  /** Every record is what an earlier event of a pod of this node found, unaltered since. */
  lemma {:induction false} RecordsHaveASource(c: NodeConfig, steps: seq<Step>, tables: seq<Tracked>, i: nat, key: string)
    requires Run(c, steps, tables) && i < |tables| && key in tables[i]
    ensures exists k: nat :: k < i && StoredBy(c, steps, tables, i, key, k)
  {
    if i > 0 {
      var step := steps[i - 1];
      if step.Watched? && step.watch.Answered() && step.watch.Stores(c, tables[i - 1]) && KeyOf(step.watch.pod) == key {
        assert DoneAt(c, steps, tables, i - 1);
        EventChangesRecords(c, step.watch, tables[i - 1]);
        assert StoredBy(c, steps, tables, i, key, i - 1);
      } else {
        StaysAsRecorded(c, steps, tables, i - 1, key);
        RecordsHaveASource(c, steps, tables, i - 1, key);
        var k: nat :| k < i - 1 && StoredBy(c, steps, tables, i - 1, key, k);
        assert StoredBy(c, steps, tables, i, key, k);
      }
    }
  }

  /** Whatever is tracked after a step that did not record it was tracked before, as it is. */
  lemma StaysAsRecorded(c: NodeConfig, steps: seq<Step>, tables: seq<Tracked>, i: nat, key: string)
    requires Run(c, steps, tables) && i < |steps| && key in tables[i + 1]
    requires steps[i].Watched? && steps[i].watch.Answered() && steps[i].watch.Stores(c, tables[i]) ==> KeyOf(steps[i].watch.pod) != key
    ensures key in tables[i] && tables[i + 1][key] == tables[i][key]
  {
    assert DoneAt(c, steps, tables, i);
    if steps[i].Swept? { KeptUnchanged(tables[i], steps[i].sweep.cleanings, key); }
  }

  /** A record belongs to a pod of this node outside the driver's namespace, and sits under that pod's key; its
      volumes live in that very instance's directories. */
  ghost predicate Owned(c: NodeConfig, key: string, info: NodePodInfo) {
    && KeyOf(info.pod) == key && info.podUID == info.pod.uid
    && info.pod.nodeName == c.nodeName && info.pod.namespace != c.driverNamespace
    && (forall v :: v in info.mounts ==>
          v.path == "/var/lib/kubelet/pods/" + info.podUID + "/volumes/kubernetes.io~csi" + "/" + v.pvName + "/mount")
    && (forall v :: v in info.devices ==>
          v.path == "/var/lib/kubelet/pods/" + info.podUID + "/volumeDevices/kubernetes.io~csi" + "/" + v.pvName)
  }

  lemma RecordsAreOwned(c: NodeConfig, steps: seq<Step>, tables: seq<Tracked>, i: nat, key: string)
    requires Run(c, steps, tables) && i < |tables| && key in tables[i]
    ensures Owned(c, key, tables[i][key])
  {
    RecordsHaveASource(c, steps, tables, i, key);
    var k: nat :| k < i && StoredBy(c, steps, tables, i, key, k);
    var w, info := steps[k].watch, tables[i][key];
    assert info == w.Info();
    forall v | v in info.mounts ensures v.path == VolumesDir(info.podUID) + "/" + v.pvName + "/mount" {
      FoundMeaning(VolumesDir(w.pod.uid), "/mount", Entries(w.volumes), w.volumeAnswers, v);
    }
    forall v | v in info.devices ensures v.path == DevicesDir(info.podUID) + "/" + v.pvName {
      FoundMeaning(DevicesDir(w.pod.uid), "", Entries(w.devices), w.deviceAnswers, v);
      assert DevicesDir(info.podUID) + "/" + v.pvName + "" == DevicesDir(info.podUID) + "/" + v.pvName;
    }
  }

  /** Without slashes in namespaces and names, a sweep can split every key it meets. */
  lemma SweepsCanSplitKeys(c: NodeConfig, steps: seq<Step>, tables: seq<Tracked>, i: nat)
    requires Run(c, steps, tables) && i < |tables|
    requires forall k :: 0 <= k < |steps| && steps[k].Watched? ==>
               '/' !in steps[k].watch.pod.namespace && '/' !in steps[k].watch.pod.name
    ensures Keyed(tables[i])
  {
    forall key | key in tables[i] ensures IsPodKey(key) {
      RecordsHaveASource(c, steps, tables, i, key);
      var k: nat :| k < i && StoredBy(c, steps, tables, i, key, k);
      SplitUndoesJoin(steps[k].watch.pod.namespace, steps[k].watch.pod.name);
    }
  }

  // ---------------------------------------------------------------- recorded volumes

  predicate Records(tracked: Tracked, key: string, v: Volume) {
    key in tracked && v in VolumesOf(tracked[key])
  }

  /** A watch event that makes a recorded volume leave uncleaned: the pod was reported deleted while its node was seen
      without the taint, or what was found anew took the record's place without the volume. */
  predicate Overlooks(c: NodeConfig, tracked: Tracked, w: Watch, key: string, v: Volume)
    requires w.Answered()
  {
    KeyOf(w.pod) == key && (IsReportedDeleted(c, w) || (PutsOnRecord(c, w, tracked) && v !in VolumesOf(w.Info())))
  }

  /** A recorded volume leaves the records exactly when a sweep cleaned its pod, or a watch event overlooks it. */
  lemma VolumeLeavesIff(c: NodeConfig, steps: seq<Step>, tables: seq<Tracked>, i: nat, key: string, v: Volume)
    requires Run(c, steps, tables) && i < |steps| && Records(tables[i], key, v)
    ensures !Records(tables[i + 1], key, v) <==>
              match steps[i]
              case Watched(w) => w.Answered() && Overlooks(c, tables[i], w, key, v)
              case Swept(scene, _, sw) => CleanedBy(c, scene, sw, tables[i][key], key)
  {
    LeavesOnlyForAReason(c, steps, tables, i, key);
    assert DoneAt(c, steps, tables, i);
    if steps[i].Watched? { EventChangesRecords(c, steps[i].watch, tables[i]); }
    if key in tables[i + 1] && steps[i].Swept? { KeptUnchanged(tables[i], steps[i].sweep.cleanings, key); }
  }

  lemma VolumesAreOf(info: NodePodInfo, v: Volume)
    requires v in VolumesOf(info)
    ensures v.podUID == info.podUID
  {
  }

  /** When what is recorded belongs to another instance of the pod, every volume of the old one is overlooked. */
  lemma AnotherInstanceOverlooksAll(c: NodeConfig, tracked: Tracked, w: Watch, key: string, v: Volume)
    requires w.Answered() && w.Stores(c, tracked) && KeyOf(w.pod) == key && Records(tracked, key, v)
    requires w.pod.uid != tracked[key].podUID
    ensures Overlooks(c, tracked, w, key, v)
  {
    VolumesAreOf(tracked[key], v);
    if v in VolumesOf(w.Info()) { VolumesAreOf(w.Info(), v); }
  }

  /** The last step that still knew the volume. */
  lemma {:induction false} LastKnown(tables: seq<Tracked>, i: nat, n: nat, key: string, v: Volume) returns (m: nat)
    requires i <= n < |tables| && Records(tables[i], key, v) && !Records(tables[n], key, v)
    ensures i <= m < n && Records(tables[m], key, v)
    ensures forall k :: m < k <= n ==> !Records(tables[k], key, v)
  {
    m := n - 1;
    if !Records(tables[m], key, v) { m := LastKnown(tables, i, m, key, v); }
  }

  /** What became of a volume that was recorded at step i and is not at step n: at the last step that knew it, its pod
      was cleaned by a sweep, or a watch event overlooked it. */
  lemma VolumeFate(c: NodeConfig, steps: seq<Step>, tables: seq<Tracked>, i: nat, n: nat, key: string, v: Volume)
    returns (m: nat)
    requires Run(c, steps, tables) && i <= n < |tables| && Records(tables[i], key, v) && !Records(tables[n], key, v)
    ensures i <= m < n && Records(tables[m], key, v)
    ensures forall k :: m < k <= n ==> !Records(tables[k], key, v)
    ensures match steps[m]
            case Watched(w) => w.Answered() && Overlooks(c, tables[m], w, key, v)
            case Swept(scene, _, sw) => CleanedBy(c, scene, sw, tables[m][key], key)
  {
    m := LastKnown(tables, i, n, key, v);
    VolumeLeavesIff(c, steps, tables, m, key, v);
  }
}
