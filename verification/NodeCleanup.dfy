/** The node's clean-up of one pod: unpublish, unstage and remove every mount and every raw block device. */
module NodeCleanup {
  import opened Kube
  import opened World

  datatype VolumeInfo = VolumeInfo(path: string, volumeID: string, pvName: string)

  datatype NodePodInfo = NodePodInfo(pod: Pod, podUID: string, mounts: seq<VolumeInfo>, devices: seq<VolumeInfo>)

  /** What differs from one array driver to the next. */
  datatype Driver = Driver(mountDir: (string, string, string) -> string,
                           blockDev: (string, string, string) -> string,
                           stagingMountDir: (string, string) -> string,
                           stagingMountDirAfter125: (string, string) -> string,
                           stagingBlockDir: (string, string) -> string,
                           unpublishExcluded: Error -> bool,
                           unstageExcluded: Error -> bool)

  /** One volume of a pod, as a mount or as a block device. */
  datatype Volume = Volume(info: VolumeInfo, rawBlock: bool, podUID: string) {
    function Publication(): Call { NodeUnpublish(info.path, info.volumeID) }

    /** The directories to unstage from; a driver answers "" for one it does not use. */
    function StagingDirs(d: Driver): seq<string> {
      if rawBlock then UsedDir(d.stagingBlockDir(info.volumeID, info.pvName))
      else UsedDir(d.stagingMountDir(info.volumeID, info.pvName)) + UsedDir(d.stagingMountDirAfter125(info.volumeID, info.pvName))
    }

    function Target(d: Driver): string {
      if rawBlock then d.blockDev(info.volumeID, info.pvName, podUID) else d.mountDir(info.volumeID, info.pvName, podUID)
    }

    function Final(): Call { FinalCleanup(rawBlock, info.volumeID, info.pvName, podUID) }
  }

  function UsedDir(dir: string): seq<string> { if dir == "" then [] else [dir] }

  // ---------------------------------------------------------------- errors that count

  /** An outcome that leaves the pod uncleaned. A failed unmount is not one. */
  predicate Bad(d: Driver, e: Event) {
    match e
    case Finished(call, Some(err)) =>
      (call.NodeUnpublish? && !d.unpublishExcluded(err)) || (call.NodeUnstage? && !d.unstageExcluded(err))
    case Did(call, Some(err)) => (call.Remove? && !err.notExist) || call.FinalCleanup?
    case _ => false
  }

  /** The error of the last bad outcome. */
  function LastBad(d: Driver, log: seq<Event>): Failure {
    if log == [] then None
    else
      var last := log[|log| - 1];
      if Bad(d, last) then last.err else LastBad(d, log[..|log| - 1])
  }

  lemma {:induction false} LastBadMeaning(d: Driver, log: seq<Event>)
    ensures LastBad(d, log) == None <==> forall e :: e in log ==> !Bad(d, e)
  {
    if log != [] {
      var before, last := log[..|log| - 1], log[|log| - 1];
      LastBadMeaning(d, before);
      assert log == before + [last];
      assert last in log;
    }
  }

  lemma {:induction false} LastBadOn(d: Driver, a: seq<Event>, b: seq<Event>)
    ensures LastBad(d, a + b) == if LastBad(d, b).Some? then LastBad(d, b) else LastBad(d, a)
  {
    if b == [] {
      assert a + b == a;
    } else {
      LastBadOn(d, a, b[..|b| - 1]);
      assert (a + b)[..|a + b| - 1] == a + b[..|b| - 1];
    }
  }

  /** Of a retrying helper only the returned outcome can be bad. */
  lemma {:induction false} RetryBad(d: Driver, call: Call, max: int, err: Failure, log: seq<Event>)
    requires RetryRun(call, max, err, log) && (call.NodeUnpublish? || call.NodeUnstage?)
    ensures LastBad(d, log) == if Bad(d, Finished(call, err)) then err else None
  {
    var before := log[..|log| - 1];
    assert forall e :: e in before ==> !Bad(d, e);
    LastBadMeaning(d, before);
  }

  // ---------------------------------------------------------------- one volume

  /** The events of one volume's clean-up. */
  datatype VolumeLog = VolumeLog(unpublish: seq<Event>, unstages: seq<seq<Event>>, finish: seq<Event>) {
    function Flat(): seq<Event> { unpublish + Join(unstages) + finish }
  }

  predicate Ends(log: seq<Event>, call: Call, max: int) {
    log != [] && log[|log| - 1].Finished? && RetryRun(call, max, log[|log| - 1].err, log)
  }

  predicate CleansVolume(d: Driver, v: Volume, max: int, l: VolumeLog) {
    && Ends(l.unpublish, v.Publication(), max)
    && if Bad(d, l.unpublish[|l.unpublish| - 1]) then l.unstages == [] && l.finish == []
       else
         && Unstages(d, v, max, l.unstages)
         && |l.finish| == 3 && (forall i :: 0 <= i < 3 ==> l.finish[i].Did?)
         && l.finish[0].call == Unmount(v.Target(d)) && l.finish[1].call == Remove(v.Target(d)) && l.finish[2].call == v.Final()
  }

  /** One retrying call per directory, in order. */
  predicate UnstagesFrom(dirs: seq<string>, volumeID: string, max: int, unstages: seq<seq<Event>>) {
    && |unstages| == |dirs|
    && forall i :: 0 <= i < |unstages| ==> Ends(unstages[i], NodeUnstage(dirs[i], volumeID), max)
  }

  predicate Unstages(d: Driver, v: Volume, max: int, unstages: seq<seq<Event>>) {
    UnstagesFrom(v.StagingDirs(d), v.info.volumeID, max, unstages)
  }

  /** Unstages from one directory, if the driver uses it; dirs and before tell what was unstaged already. */
  method CallNodeUnstage(world: World, d: Driver, dir: string, volumeID: string, max: int, err0: Failure,
                         ghost t0: seq<Event>, ghost dirs: seq<string>, ghost before: seq<seq<Event>>)
    returns (err: Failure, ghost unstages: seq<seq<Event>>)
    requires world.trace == t0 + Join(before) && UnstagesFrom(dirs, volumeID, max, before) && err0 == LastBad(d, Join(before))
    modifies world`trace
    ensures world.trace == t0 + Join(unstages)
    ensures UnstagesFrom(dirs + UsedDir(dir), volumeID, max, unstages)
    ensures err == LastBad(d, Join(unstages))
  {
    err, unstages := err0, before;
    if dir != "" {
      var e, one := CallWithRetries(world, NodeUnstage(dir, volumeID), max);
      RetryBad(d, NodeUnstage(dir, volumeID), max, e, one);
      JoinAdded(before, one);
      LastBadOn(d, Join(before), one);
      Regroup(t0, Join(before), one);
      unstages := before + [one];
      if e.Some? && !d.unstageExcluded(e.value) { err := e; }
    }
  }

  /** A mount has two places to unstage from, a device one. */
  method UnstageVolume(world: World, d: Driver, v: Volume, max: int) returns (err: Failure, ghost unstages: seq<seq<Event>>)
    modifies world`trace
    ensures world.trace == old(world.trace) + Join(unstages)
    ensures Unstages(d, v, max, unstages)
    ensures err == LastBad(d, Join(unstages))
  {
    var id, pv := v.info.volumeID, v.info.pvName;
    ghost var t0 := world.trace;
    if v.rawBlock {
      var dir := d.stagingBlockDir(id, pv);
      err, unstages := CallNodeUnstage(world, d, dir, id, max, None, t0, [], []);
      assert [] + UsedDir(dir) == v.StagingDirs(d);
    } else {
      var dir, dirAfter125 := d.stagingMountDir(id, pv), d.stagingMountDirAfter125(id, pv);
      err, unstages := CallNodeUnstage(world, d, dir, id, max, None, t0, [], []);
      err, unstages := CallNodeUnstage(world, d, dirAfter125, id, max, err, t0, [] + UsedDir(dir), unstages);
      assert [] + UsedDir(dir) + UsedDir(dirAfter125) == v.StagingDirs(d);
    }
  }

  /** The tail of a volume's clean-up, after it was unpublished. */
  method FinishVolume(world: World, d: Driver, v: Volume) returns (err: Failure, ghost finish: seq<Event>)
    modifies world`trace
    ensures world.trace == old(world.trace) + finish
    ensures |finish| == 3 && (forall i :: 0 <= i < 3 ==> finish[i].Did?)
    ensures finish[0].call == Unmount(v.Target(d)) && finish[1].call == Remove(v.Target(d)) && finish[2].call == v.Final()
    ensures err == LastBad(d, finish)
  {
    err := None;
    var target;
    if v.rawBlock {
      target := d.blockDev(v.info.volumeID, v.info.pvName, v.podUID);
    } else {
      target := d.mountDir(v.info.volumeID, v.info.pvName, v.podUID);
    }
    var e0 := world.Do(Unmount(target));
    var e1 := world.Do(Remove(target));
    if e1.Some? && !e1.value.notExist { err := e1; }
    var e2 := world.Do(FinalCleanup(v.rawBlock, v.info.volumeID, v.info.pvName, v.podUID));
    if e2.Some? { err := e2; }
    finish := [Did(Unmount(target), e0), Did(Remove(target), e1), Did(v.Final(), e2)];
    assert finish[..2] == [finish[0], finish[1]] && finish[..2][..1] == [finish[0]] && [finish[0]][..0] == [];
    assert LastBad(d, finish[..2]) == if Bad(d, finish[1]) then e1 else LastBad(d, [finish[0]]);
    assert LastBad(d, [finish[0]]) == None;
  }

  /** Cleans one volume; an unpublish that fails ends its clean-up. */
  method CleanupVolume(world: World, d: Driver, v: Volume, max: int) returns (err: Failure, ghost l: VolumeLog)
    modifies world`trace
    ensures world.trace == old(world.trace) + l.Flat()
    ensures CleansVolume(d, v, max, l)
    ensures err == LastBad(d, l.Flat())
  {
    ghost var t0 := world.trace;
    var e, unpublish := CallWithRetries(world, NodeUnpublish(v.info.path, v.info.volumeID), max);
    RetryBad(d, v.Publication(), max, e, unpublish);
    l := VolumeLog(unpublish, [], []);
    if e.Some? && !d.unpublishExcluded(e.value) {
      assert l.Flat() == unpublish;
      return e, l;
    }
    var err1, unstages := UnstageVolume(world, d, v, max);
    var err2, finish := FinishVolume(world, d, v);
    l := VolumeLog(unpublish, unstages, finish);
    err := if err2.Some? then err2 else err1;
    LastBadOn(d, unpublish, Join(unstages));
    LastBadOn(d, unpublish + Join(unstages), finish);
    assert world.trace == t0 + l.Flat() by {
      Regroup(t0, unpublish, Join(unstages));
      Regroup(t0, unpublish + Join(unstages), finish);
    }
  }

  // ---------------------------------------------------------------- one pod

  function VolumesOf(info: NodePodInfo): seq<Volume> {
    seq(|info.mounts|, i requires 0 <= i < |info.mounts| => Volume(info.mounts[i], false, info.podUID)) +
    seq(|info.devices|, i requires 0 <= i < |info.devices| => Volume(info.devices[i], true, info.podUID))
  }

  function LogsOf(ls: seq<VolumeLog>): seq<Event> {
    if ls == [] then [] else LogsOf(ls[..|ls| - 1]) + ls[|ls| - 1].Flat()
  }

  /** The first volumes are cleaned, in order, whatever happens to the ones before them. */
  ghost predicate CleansFirst(d: Driver, vs: seq<Volume>, max: int, ls: seq<VolumeLog>) {
    ls == [] ||
    (var n := |ls| - 1; n < |vs| && CleansFirst(d, vs, max, ls[..n]) && CleansVolume(d, vs[n], max, ls[n]))
  }

  lemma {:induction false} CleansAt(d: Driver, vs: seq<Volume>, max: int, ls: seq<VolumeLog>, i: nat)
    requires CleansFirst(d, vs, max, ls) && i < |ls|
    ensures |ls| <= |vs| && CleansVolume(d, vs[i], max, ls[i])
  {
    if i < |ls| - 1 { CleansAt(d, vs, max, ls[..|ls| - 1], i); }
  }

  lemma CleansNext(d: Driver, vs: seq<Volume>, max: int, ls: seq<VolumeLog>, l: VolumeLog)
    requires CleansFirst(d, vs, max, ls) && |ls| < |vs| && CleansVolume(d, vs[|ls|], max, l)
    ensures CleansFirst(d, vs, max, ls + [l])
  {
    assert (ls + [l])[..|ls|] == ls;
  }

  /** All mounts and then all devices are cleaned. */
  ghost predicate CleansPod(d: Driver, info: NodePodInfo, max: int, ls: seq<VolumeLog>) {
    CleansFirst(d, VolumesOf(info), max, ls) && |ls| == |VolumesOf(info)|
  }

  /** The body of the loop, after the volumes before. */
  method CleanupNext(world: World, d: Driver, v: Volume, max: int, err0: Failure, ghost t0: seq<Event>, ghost vs: seq<Volume>,
                     ghost before: seq<VolumeLog>)
    returns (returnErr: Failure, ghost ls: seq<VolumeLog>)
    requires CleansFirst(d, vs, max, before) && |before| < |vs| && vs[|before|] == v
    requires world.trace == t0 + LogsOf(before) && err0 == LastBad(d, LogsOf(before))
    modifies world`trace
    ensures |ls| == |before| + 1 && CleansFirst(d, vs, max, ls)
    ensures world.trace == t0 + LogsOf(ls) && returnErr == LastBad(d, LogsOf(ls))
  {
    var err, l := CleanupVolume(world, d, v, max);
    VolumeAdded(d, t0, before, l);
    CleansNext(d, vs, max, before, l);
    returnErr := if err.Some? then err else err0;
    ls := before + [l];
  }

  /** The loop over the mounts, or over the devices; first are the volumes cleaned before. */
  method CleanupAll(world: World, d: Driver, infos: seq<VolumeInfo>, rawBlock: bool, podUID: string, max: int, err0: Failure,
                    ghost t0: seq<Event>, ghost vs: seq<Volume>, ghost first: seq<VolumeLog>)
    returns (returnErr: Failure, ghost ls: seq<VolumeLog>)
    requires CleansFirst(d, vs, max, first) && |first| + |infos| <= |vs|
    requires forall i :: 0 <= i < |infos| ==> vs[|first| + i] == Volume(infos[i], rawBlock, podUID)
    requires world.trace == t0 + LogsOf(first) && err0 == LastBad(d, LogsOf(first))
    modifies world`trace
    ensures |ls| == |first| + |infos| && CleansFirst(d, vs, max, ls)
    ensures world.trace == t0 + LogsOf(ls) && returnErr == LastBad(d, LogsOf(ls))
  {
    returnErr, ls := err0, first;
    for i := 0 to |infos|
      invariant |ls| == |first| + i && CleansFirst(d, vs, max, ls)
      invariant world.trace == t0 + LogsOf(ls) && returnErr == LastBad(d, LogsOf(ls))
    {
      returnErr, ls := CleanupNext(world, d, Volume(infos[i], rawBlock, podUID), max, returnErr, t0, vs, ls);
    }
  }

  method NodeModeCleanupPod(world: World, d: Driver, info: NodePodInfo, max: int) returns (returnErr: Failure, ghost ls: seq<VolumeLog>)
    modifies world`trace
    ensures world.trace == old(world.trace) + LogsOf(ls)
    ensures CleansPod(d, info, max, ls)
    ensures returnErr == LastBad(d, LogsOf(ls))
  {
    ghost var t0, vs := world.trace, VolumesOf(info);
    returnErr, ls := CleanupAll(world, d, info.mounts, false, info.podUID, max, None, t0, vs, []);
    returnErr, ls := CleanupAll(world, d, info.devices, true, info.podUID, max, returnErr, t0, vs, ls);
  }

  lemma VolumeAdded(d: Driver, trace: seq<Event>, ls: seq<VolumeLog>, l: VolumeLog)
    ensures trace + LogsOf(ls) + l.Flat() == trace + LogsOf(ls + [l])
    ensures LastBad(d, LogsOf(ls + [l])) == if LastBad(d, l.Flat()).Some? then LastBad(d, l.Flat()) else LastBad(d, LogsOf(ls))
  {
    assert (ls + [l])[..|ls|] == ls;
    Regroup(trace, LogsOf(ls), l.Flat());
    LastBadOn(d, LogsOf(ls), l.Flat());
  }

  // ---------------------------------------------------------------- what a clean pod means

  lemma {:induction false} LogsHold(ls: seq<VolumeLog>, i: nat, e: Event)
    requires i < |ls| && e in ls[i].Flat()
    ensures e in LogsOf(ls)
  {
    if i < |ls| - 1 { LogsHold(ls[..|ls| - 1], i, e); }
  }

  /** A retried call ended in success, or in an error the driver excuses. */
  ghost predicate Settled(call: Call, excluded: Error -> bool, log: seq<Event>) {
    exists e :: e in log && e.Finished? && e.call == call && (e.err == None || excluded(e.err.value))
  }

  /** Right after it was asked to be unmounted the target was removed, or was not there. */
  ghost predicate Removed(target: string, log: seq<Event>) {
    exists i :: 0 < i < |log| && RemovedAt(target, log[i - 1], log[i])
  }

  predicate RemovedAt(target: string, first: Event, second: Event) {
    && first.Did? && first.call == Unmount(target)
    && second.Did? && second.call == Remove(target) && (second.err == None || second.err.value.notExist)
  }

  /** The clean-up of a volume got through: it ended unpublished and unstaged (or with an excused error), its target
      was removed (or was not there), and the driver's final clean-up succeeded. */
  ghost predicate VolumeIsClean(d: Driver, v: Volume, log: seq<Event>) {
    && Settled(v.Publication(), d.unpublishExcluded, log)
    && (forall dir :: dir in v.StagingDirs(d) ==> Settled(NodeUnstage(dir, v.info.volumeID), d.unstageExcluded, log))
    && Removed(v.Target(d), log)
    && Did(v.Final(), None) in log
  }

  /** The clean-up of a mount got through: unpublished, unstaged from both directories the driver may use, the private
      mount directory removed (or not there), and the driver's final clean-up done. */
  ghost predicate MountIsClean(d: Driver, m: VolumeInfo, podUID: string, log: seq<Event>) {
    var dir, dirAfter125 := d.stagingMountDir(m.volumeID, m.pvName), d.stagingMountDirAfter125(m.volumeID, m.pvName);
    && Settled(NodeUnpublish(m.path, m.volumeID), d.unpublishExcluded, log)
    && (dir != "" ==> Settled(NodeUnstage(dir, m.volumeID), d.unstageExcluded, log))
    && (dirAfter125 != "" ==> Settled(NodeUnstage(dirAfter125, m.volumeID), d.unstageExcluded, log))
    && Removed(d.mountDir(m.volumeID, m.pvName, podUID), log)
    && Did(FinalCleanup(false, m.volumeID, m.pvName, podUID), None) in log
  }

  /** The same for a raw block device, which has one staging directory. */
  ghost predicate DeviceIsClean(d: Driver, m: VolumeInfo, podUID: string, log: seq<Event>) {
    var dir := d.stagingBlockDir(m.volumeID, m.pvName);
    && Settled(NodeUnpublish(m.path, m.volumeID), d.unpublishExcluded, log)
    && (dir != "" ==> Settled(NodeUnstage(dir, m.volumeID), d.unstageExcluded, log))
    && Removed(d.blockDev(m.volumeID, m.pvName, podUID), log)
    && Did(FinalCleanup(true, m.volumeID, m.pvName, podUID), None) in log
  }

  /** Each log is that of its mount, and then of its device, and all are clean. */
  ghost predicate PodIsClean(d: Driver, info: NodePodInfo, ls: seq<VolumeLog>) {
    && |ls| == |info.mounts| + |info.devices|
    && (forall i :: 0 <= i < |info.mounts| ==> MountIsClean(d, info.mounts[i], info.podUID, ls[i].Flat()))
    && (forall i :: 0 <= i < |info.devices| ==> DeviceIsClean(d, info.devices[i], info.podUID, ls[|info.mounts| + i].Flat()))
  }

  lemma MountIs(d: Driver, m: VolumeInfo, podUID: string, log: seq<Event>)
    requires VolumeIsClean(d, Volume(m, false, podUID), log)
    ensures MountIsClean(d, m, podUID, log)
  {
    var v := Volume(m, false, podUID);
    var dir, dirAfter125 := d.stagingMountDir(m.volumeID, m.pvName), d.stagingMountDirAfter125(m.volumeID, m.pvName);
    assert dir != "" ==> dir in v.StagingDirs(d);
    assert dirAfter125 != "" ==> dirAfter125 in v.StagingDirs(d);
  }

  lemma DeviceIs(d: Driver, m: VolumeInfo, podUID: string, log: seq<Event>)
    requires VolumeIsClean(d, Volume(m, true, podUID), log)
    ensures DeviceIsClean(d, m, podUID, log)
  {
    var v := Volume(m, true, podUID);
    var dir := d.stagingBlockDir(m.volumeID, m.pvName);
    assert dir != "" ==> dir in v.StagingDirs(d);
  }

  /** nil is returned exactly when no volume had a bad outcome; and then every mount and every device is clean. */
  lemma PodIsCleanIffNothingBad(d: Driver, info: NodePodInfo, max: int, ls: seq<VolumeLog>)
    requires CleansPod(d, info, max, ls)
    ensures LastBad(d, LogsOf(ls)) == None <==> forall e :: e in LogsOf(ls) ==> !Bad(d, e)
    ensures LastBad(d, LogsOf(ls)) == None ==> PodIsClean(d, info, ls)
  {
    LastBadMeaning(d, LogsOf(ls));
    if LastBad(d, LogsOf(ls)) == None {
      VolumesAreClean(d, info, max, ls);
      AllAreClean(d, info, ls);
    }
  }

  lemma AllAreClean(d: Driver, info: NodePodInfo, ls: seq<VolumeLog>)
    requires |ls| == |VolumesOf(info)| && forall i :: 0 <= i < |ls| ==> VolumeIsClean(d, VolumesOf(info)[i], ls[i].Flat())
    ensures PodIsClean(d, info, ls)
  {
    forall i | 0 <= i < |info.mounts| ensures MountIsClean(d, info.mounts[i], info.podUID, ls[i].Flat()) {
      assert VolumesOf(info)[i] == Volume(info.mounts[i], false, info.podUID);
      MountIs(d, info.mounts[i], info.podUID, ls[i].Flat());
    }
    forall i | 0 <= i < |info.devices| ensures DeviceIsClean(d, info.devices[i], info.podUID, ls[|info.mounts| + i].Flat()) {
      assert VolumesOf(info)[|info.mounts| + i] == Volume(info.devices[i], true, info.podUID);
      DeviceIs(d, info.devices[i], info.podUID, ls[|info.mounts| + i].Flat());
    }
  }

  lemma VolumesAreClean(d: Driver, info: NodePodInfo, max: int, ls: seq<VolumeLog>)
    requires CleansPod(d, info, max, ls) && forall e :: e in LogsOf(ls) ==> !Bad(d, e)
    ensures forall i :: 0 <= i < |VolumesOf(info)| ==> VolumeIsClean(d, VolumesOf(info)[i], ls[i].Flat())
  {
    forall i | 0 <= i < |VolumesOf(info)| ensures VolumeIsClean(d, VolumesOf(info)[i], ls[i].Flat()) {
      forall e | e in ls[i].Flat() ensures !Bad(d, e) { LogsHold(ls, i, e); }
      CleansAt(d, VolumesOf(info), max, ls, i);
      NothingBadIsClean(d, VolumesOf(info)[i], max, ls[i]);
    }
  }

  lemma NothingBadIsClean(d: Driver, v: Volume, max: int, l: VolumeLog)
    requires CleansVolume(d, v, max, l) && forall e :: e in l.Flat() ==> !Bad(d, e)
    ensures VolumeIsClean(d, v, l.Flat())
  {
    PublishedWell(d, v, max, l);
    FinishedWell(d, v, l);
    forall dir | dir in v.StagingDirs(d) ensures Settled(NodeUnstage(dir, v.info.volumeID), d.unstageExcluded, l.Flat()) {
      UnstagedWell(d, v, max, l, dir);
    }
  }

  lemma PublishedWell(d: Driver, v: Volume, max: int, l: VolumeLog)
    requires Ends(l.unpublish, v.Publication(), max) && forall e :: e in l.Flat() ==> !Bad(d, e)
    ensures !Bad(d, l.unpublish[|l.unpublish| - 1])
    ensures Settled(v.Publication(), d.unpublishExcluded, l.Flat())
  {
    var e := l.unpublish[|l.unpublish| - 1];
    assert l.Flat()[|l.unpublish| - 1] == e && !Bad(d, e);
    UnpublishIsSettled(d, v, max, l);
  }

  lemma FinishedWell(d: Driver, v: Volume, l: VolumeLog)
    requires |l.finish| == 3 && (forall i :: 0 <= i < 3 ==> l.finish[i].Did?)
    requires l.finish[0].call == Unmount(v.Target(d)) && l.finish[1].call == Remove(v.Target(d)) && l.finish[2].call == v.Final()
    requires forall e :: e in l.Flat() ==> !Bad(d, e)
    ensures Removed(v.Target(d), l.Flat()) && Did(v.Final(), None) in l.Flat()
  {
    var before := l.unpublish + Join(l.unstages);
    assert l.Flat()[|before|] == l.finish[0] && l.Flat()[|before| + 1] == l.finish[1] && l.Flat()[|before| + 2] == l.finish[2];
    assert !Bad(d, l.finish[1]) && !Bad(d, l.finish[2]);
    assert l.finish[2] == Did(v.Final(), None);
    assert RemovedAt(v.Target(d), l.Flat()[|before|], l.Flat()[|before| + 1]);
  }

  lemma UnstagedWell(d: Driver, v: Volume, max: int, l: VolumeLog, dir: string)
    requires Unstages(d, v, max, l.unstages) && (forall e :: e in l.Flat() ==> !Bad(d, e)) && dir in v.StagingDirs(d)
    ensures Settled(NodeUnstage(dir, v.info.volumeID), d.unstageExcluded, l.Flat())
  {
    var i :| 0 <= i < |l.unstages| && v.StagingDirs(d)[i] == dir;
    assert Ends(l.unstages[i], NodeUnstage(dir, v.info.volumeID), max);
    var e := l.unstages[i][|l.unstages[i]| - 1];
    JoinHas(l.unstages, e);
    assert e in l.Flat() && !Bad(d, e);
  }

  function StepOf(e: Event): nat {
    match e
    case Did(call, _) => StepOfCall(call)
    case Finished(call, _) => StepOfCall(call)
    case _ => 5
  }

  function StepOfCall(call: Call): nat {
    match call
    case NodeUnpublish(_, _) => 0
    case NodeUnstage(_, _) => 1
    case Unmount(_) => 2
    case Remove(_) => 3
    case FinalCleanup(_, _, _, _) => 4
    case _ => 5
  }

  ghost predicate InSteps(log: seq<Event>, low: int, high: int) {
    && (forall i :: 0 <= i < |log| ==> low <= StepOf(log[i]) <= high)
    && (forall i, k :: 0 <= i < k < |log| ==> StepOf(log[i]) <= StepOf(log[k]))
  }

  lemma StepsJoin(a: seq<Event>, b: seq<Event>, low: int, mid: int, mid': int, high: int)
    requires InSteps(a, low, mid) && InSteps(b, mid', high) && low <= mid <= mid' <= high
    ensures InSteps(a + b, low, high)
  {
  }

  lemma UnstagesAreOneStep(d: Driver, v: Volume, max: int, unstages: seq<seq<Event>>)
    requires Unstages(d, v, max, unstages)
    ensures InSteps(Join(unstages), 1, 1)
  {
    forall e | e in Join(unstages) ensures StepOf(e) == 1 {
      JoinHas(unstages, e);
      var i :| 0 <= i < |unstages| && e in unstages[i];
      assert Ends(unstages[i], NodeUnstage(v.StagingDirs(d)[i], v.info.volumeID), max);
    }
    assert forall i :: 0 <= i < |Join(unstages)| ==> Join(unstages)[i] in Join(unstages);
  }

  /** A volume's clean-up only moves forward: unpublish, unstage, unmount, remove, final clean-up; and nothing follows an
      unpublish that is neither a success nor excused. */
  lemma VolumeStepsInOrder(d: Driver, v: Volume, max: int, l: VolumeLog)
    requires CleansVolume(d, v, max, l)
    ensures InSteps(l.Flat(), 0, 4)
    ensures (forall e :: e in l.Flat() ==> StepOf(e) == 0) || Settled(NodeUnpublish(v.info.path, v.info.volumeID), d.unpublishExcluded, l.Flat())
  {
    UnpublishIsOneStep(v, max, l.unpublish);
    if Bad(d, l.unpublish[|l.unpublish| - 1]) {
      assert l.Flat() == l.unpublish;
    } else {
      UnstagesAreOneStep(d, v, max, l.unstages);
      FinishInSteps(d, v, l.finish);
      StepsJoin(l.unpublish, Join(l.unstages), 0, 0, 1, 1);
      StepsJoin(l.unpublish + Join(l.unstages), l.finish, 0, 1, 2, 4);
      UnpublishIsSettled(d, v, max, l);
    }
  }

  lemma UnpublishIsOneStep(v: Volume, max: int, unpublish: seq<Event>)
    requires Ends(unpublish, v.Publication(), max)
    ensures InSteps(unpublish, 0, 0)
  {
  }

  lemma UnpublishIsSettled(d: Driver, v: Volume, max: int, l: VolumeLog)
    requires Ends(l.unpublish, v.Publication(), max) && !Bad(d, l.unpublish[|l.unpublish| - 1])
    ensures Settled(v.Publication(), d.unpublishExcluded, l.Flat())
  {
    assert l.Flat()[|l.unpublish| - 1] == l.unpublish[|l.unpublish| - 1];
  }

  lemma FinishInSteps(d: Driver, v: Volume, finish: seq<Event>)
    requires |finish| == 3 && forall i :: 0 <= i < 3 ==> finish[i].Did?
    requires finish[0].call == Unmount(v.Target(d)) && finish[1].call == Remove(v.Target(d)) && finish[2].call == v.Final()
    ensures InSteps(finish, 2, 4)
  {
  }

  /** Every mount and every device is at least tried: with attempts allowed, each is asked to be unpublished. */
  lemma EveryVolumeIsTried(d: Driver, info: NodePodInfo, max: int, ls: seq<VolumeLog>, m: VolumeInfo)
    requires CleansPod(d, info, max, ls) && (m in info.mounts || m in info.devices) && 0 < max
    ensures exists e :: e in LogsOf(ls) && e.Did? && e.call == NodeUnpublish(m.path, m.volumeID)
  {
    var i := IndexOf(info, m);
    CleansAt(d, VolumesOf(info), max, ls, i);
    var e := ls[i].unpublish[0];
    assert e in ls[i].Flat();
    LogsHold(ls, i, e);
  }

  lemma IndexOf(info: NodePodInfo, m: VolumeInfo) returns (i: nat)
    requires m in info.mounts || m in info.devices
    ensures i < |VolumesOf(info)| && VolumesOf(info)[i].info == m
  {
    if m in info.mounts {
      i :| i < |info.mounts| && info.mounts[i] == m;
    } else {
      var k: nat :| k < |info.devices| && info.devices[k] == m;
      i := |info.mounts| + k;
    }
  }
}
