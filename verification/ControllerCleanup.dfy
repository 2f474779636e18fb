/** The controller's clean-up of one pod: look up, validate, fence, taint, detach, force delete. */
module ControllerCleanup {
  import opened Kube
  import opened World
  import opened Monitor

  // ---------------------------------------------------------------- vocabulary

  /** The handles of the CSI volumes, in order. */
  function VolumeIDs(pvs: seq<PersistentVolume>): seq<string> {
    if pvs == [] then []
    else
      var last := pvs[|pvs| - 1];
      VolumeIDs(pvs[..|pvs| - 1]) + if last.csiHandle.Some? then [last.csiHandle.value] else []
  }

  /** VolumeIDs is no more and no less than the handles of the volumes that have one. */
  lemma {:induction false} VolumeIDsMeaning(pvs: seq<PersistentVolume>, id: string)
    ensures id in VolumeIDs(pvs) <==> exists i :: 0 <= i < |pvs| && pvs[i].csiHandle == Some(id)
  {
    if pvs != [] {
      var before, last := pvs[..|pvs| - 1], pvs[|pvs| - 1];
      VolumeIDsMeaning(before, id);
      if id in VolumeIDs(before) {
        var i :| 0 <= i < |before| && before[i].csiHandle == Some(id);
        assert pvs[i].csiHandle == Some(id);
      } else if id in VolumeIDs(pvs) {
        assert last.csiHandle == Some(id);
      }
    }
  }

  lemma {:induction false} VolumeIDsOn(a: seq<PersistentVolume>, b: seq<PersistentVolume>)
    ensures VolumeIDs(a + b) == VolumeIDs(a) + VolumeIDs(b)
  {
    if b == [] {
      assert a + b == a;
    } else {
      VolumeIDsOn(a, b[..|b| - 1]);
      assert (a + b)[..|a + b| - 1] == a + b[..|b| - 1];
    }
  }

  /** In order: splitting the list splits the handles, and one volume gives its handle, if it has one. */
  lemma VolumeIDsInOrder(a: seq<PersistentVolume>, pv: PersistentVolume, b: seq<PersistentVolume>)
    ensures VolumeIDs(a + [pv] + b) == VolumeIDs(a) + (if pv.csiHandle.Some? then [pv.csiHandle.value] else []) + VolumeIDs(b)
  {
    VolumeIDsOn(a, [pv]);
    VolumeIDsOn(a + [pv], b);
    assert [pv][..0] == [];
  }

  predicate IsRWXMode(mode: string) {
    mode == "RWX" || mode == "ReadWriteMany"
  }

  predicate AnyRWX(pvs: seq<PersistentVolume>) {
    exists i, j :: 0 <= i < |pvs| && 0 <= j < |pvs[i].accessModes| && IsRWXMode(pvs[i].accessModes[j])
  }

  method GetVolumeIDs(pvs: seq<PersistentVolume>) returns (ids: seq<string>)
    ensures ids == VolumeIDs(pvs)
  {
    ids := [];
    for i := 0 to |pvs|
      invariant ids == VolumeIDs(pvs[..i])
    {
      assert pvs[..i + 1][..i] == pvs[..i];
      if pvs[i].csiHandle.Some? { ids := ids + [pvs[i].csiHandle.value]; }
    }
    assert pvs[..|pvs|] == pvs;
  }

  method IsRWXVolume(pvs: seq<PersistentVolume>) returns (rwx: bool)
    ensures rwx <==> AnyRWX(pvs)
  {
    for i := 0 to |pvs|
      invariant forall a, b :: 0 <= a < i && 0 <= b < |pvs[a].accessModes| ==> !IsRWXMode(pvs[a].accessModes[b])
    {
      var modes := pvs[i].accessModes;
      for j := 0 to |modes|
        invariant forall b :: 0 <= b < j ==> !IsRWXMode(modes[b])
      {
        if modes[j] == "RWX" || modes[j] == "ReadWriteMany" { return true; }
      }
    }
    rwx := false;
  }

  predicate IsNotFound(err: Failure) {
    err.Some? && Contains(err.value.message, "not found")
  }

  /** What a clean-up is asked to do, and under which configuration. */
  datatype Job = Job(config: Config, pod: Pod, node: Node, taintnoexec: bool, taintpodmon: bool) {
    function Key(): string { KeyOf(pod) }
    function Fence(volume: string): Call { ControllerUnpublish(node.csiNodeID, volume) }
    function TaintCall(): Call { TaintNode(node.name, config.podmonTaint, NO_SCHEDULE, false) }
    function DeleteCall(): Call { DeletePod(Key(), pod.uid, true) }
    predicate MayIgnoreArray() { config.skipValidation && taintnoexec }

    /** The driver's verdict lets the clean-up go on: no error, disconnected (unless the node may just have come
        back), and idle (unless the volumes may be shared). */
    predicate Passes(v: Verdict, rwx: bool) {
      v.err == None && (v.connected ==> taintpodmon) && (v.iosInProgress ==> rwx)
    }
  }

  // ---------------------------------------------------------------- the phases of a run

  /** The events of a run, phase by phase; a phase that was not reached is empty. Fencing and detaching have one
      log for every volume and every attachment. */
  datatype Run = Run(volumes: seq<Event>, attachments: seq<Event>, host: seq<Event>, driver: seq<Event>,
                     fences: seq<seq<Event>>, taint: seq<Event>, detaches: seq<seq<Event>>, delete: seq<Event>) {
    /** The run as one log. */
    function Flat(): seq<Event> {
      volumes + attachments + Rest()
    }

    function Rest(): seq<Event> {
      host + (driver + Join(fences)) + Removal()
    }

    function Removal(): seq<Event> {
      taint + Join(detaches) + delete
    }

    function PVs(): seq<PersistentVolume> {
      if volumes != [] && volumes[0].PVsRead? && volumes[0].pvs.Ok? then volumes[0].pvs.value else []
    }
  }

  const NO_RUN := Run([], [], [], [], [], [], [], [])

  predicate VolumesKnown(j: Job, r: Run) {
    && r.volumes == [PVsRead(j.Key(), Ok(r.PVs()), |r.PVs()|)]
    && !(j.config.ignoreVolumeless && r.PVs() == [])
  }

  /** One look-up per volume in order, stopping at the first that fails. */
  predicate LookUps(j: Job, pvs: seq<PersistentVolume>, log: seq<Event>) {
    && |log| <= |pvs|
    && (forall i :: 0 <= i < |log| ==> log[i].AttachmentRead? && log[i].pv == pvs[i].name && log[i].node == j.node.name)
    && (forall i :: 0 <= i < |log| - 1 ==> log[i].attachment.Ok?)
    && (log == [] || log[|log| - 1].attachment.Ok? ==> |log| == |pvs|)
  }

  predicate LookedUp(j: Job, pvs: seq<PersistentVolume>, log: seq<Event>) {
    LookUps(j, pvs, log) && (log == [] || log[|log| - 1].attachment.Ok?)
  }

  /** The attachments the look-ups found, in order. */
  function Names(log: seq<Event>): seq<string> {
    if log == [] then []
    else
      var e := log[|log| - 1];
      Names(log[..|log| - 1]) +
      if e.AttachmentRead? && e.attachment.Ok? && e.attachment.value.Some? then [e.attachment.value.value.name] else []
  }

  /** The driver is asked only when it has the extension and is connected. */
  predicate HostQuestion(j: Job, pvs: seq<PersistentVolume>, log: seq<Event>) {
    if !j.config.extensionsPresent then log == []
    else
      && log != [] && log[0].DriverConnected? && log[0].stage == AtValidation
      && if !log[0].connected || j.node.csiNodeID == "" then |log| == 1
         else
           && |log| == 2 && log[1].Validated?
           && log[1] == Validated(j.node.name, j.node.csiNodeID, VolumeIDs(pvs), log[1].reply)
  }

  predicate HostCleared(j: Job, pvs: seq<PersistentVolume>, log: seq<Event>) {
    && HostQuestion(j, pvs, log)
    && (log == [] || !log[0].connected || j.MayIgnoreArray() ||
        (|log| == 2 && j.Passes(Interpret(log[1].reply), AnyRWX(pvs))))
  }

  /** Every volume is fenced in turn, whatever happens to the ones before it. */
  predicate Fencing(j: Job, volumes: seq<string>, driver: seq<Event>, fences: seq<seq<Event>>) {
    && |driver| == 1 && driver[0].DriverConnected? && driver[0].stage == AtFencing
    && if !driver[0].connected then fences == []
       else |fences| == |volumes| && forall i :: 0 <= i < |volumes| ==> FencesOne(j, volumes[i], fences[i])
  }

  /** Without a node ID the driver is not called at all. */
  predicate FencesOne(j: Job, volume: string, log: seq<Event>) {
    && log != [] && log[|log| - 1].Finished?
    && if j.node.csiNodeID == "" then log == [Finished(j.Fence(volume), Some(NoNodeID()))]
       else RetryRun(j.Fence(volume), j.config.maxRetries, log[|log| - 1].err, log)
  }

  function NoNodeID(): Error { Error("csiNodeID is not set", false) }

  /** The helper that wrote this log reported success. */
  predicate EndedWell(log: seq<Event>) {
    log != [] && log[|log| - 1].Finished? && log[|log| - 1].err == None
  }

  predicate AllFenced(fences: seq<seq<Event>>) {
    forall i :: 0 <= i < |fences| ==> EndedWell(fences[i])
  }

  /** One delete, and a second try after any error. */
  predicate DetachesOne(name: string, log: seq<Event>) {
    && 1 <= |log| <= 2
    && (forall i :: 0 <= i < |log| ==> log[i].Did? && log[i].call == DeleteAttachment(name))
    && (|log| == 2 <==> log[0].err.Some?)
  }

  /** The delete succeeded, or its second try found nothing. */
  predicate IsDetached(log: seq<Event>) {
    log != [] && log[|log| - 1].Did? && (log[|log| - 1].err == None || IsNotFound(log[|log| - 1].err))
  }

  /** The attachments are deleted in order, up to the first that stays. */
  predicate Detaching(names: seq<string>, detaches: seq<seq<Event>>) {
    && |detaches| <= |names|
    && (forall i :: 0 <= i < |detaches| ==> DetachesOne(names[i], detaches[i]))
    && (forall i :: 0 <= i < |detaches| - 1 ==> IsDetached(detaches[i]))
    && (detaches == [] || IsDetached(detaches[|detaches| - 1]) ==> |detaches| == |names|)
  }

  predicate AllDetached(names: seq<string>, detaches: seq<seq<Event>>) {
    |detaches| == |names| && (detaches == [] || IsDetached(detaches[|detaches| - 1]))
  }

  // ---------------------------------------------------------------- the source's steps

  method CallControllerUnpublishVolume(world: World, j: Job, volume: string) returns (err: Failure, ghost log: seq<Event>)
    modifies world`trace
    ensures world.trace == old(world.trace) + log
    ensures FencesOne(j, volume, log) && log[|log| - 1].err == err
  {
    if j.node.csiNodeID == "" {
      err := Some(Error("csiNodeID is not set", false));
      log := [Finished(ControllerUnpublish(j.node.csiNodeID, volume), err)];
      world.Note(log[0]);
      return;
    }
    err, log := CallWithRetries(world, ControllerUnpublish(j.node.csiNodeID, volume), j.config.maxRetries);
  }

  method ReadAttachments(world: World, j: Job, pvs: seq<PersistentVolume>)
    returns (ok: bool, names: seq<string>, ghost log: seq<Event>)
    modifies world`trace
    ensures world.trace == old(world.trace) + log
    ensures LookUps(j, pvs, log) && (ok <==> LookedUp(j, pvs, log))
    ensures ok ==> names == Names(log)
  {
    names, log := [], [];
    for i := 0 to |pvs|
      invariant |log| == i && world.trace == old(world.trace) + log
      invariant forall k :: 0 <= k < i ==>
                  log[k].AttachmentRead? && log[k].pv == pvs[k].name && log[k].node == j.node.name && log[k].attachment.Ok?
      invariant names == Names(log)
    {
      var va := world.ReadAttachment(pvs[i].name, j.node.name);
      ghost var before := log;
      log := log + [AttachmentRead(pvs[i].name, j.node.name, va)];
      if va.Err? { return false, names, log; }
      assert log[..i] == before;
      if va.value.Some? { names := names + [va.value.value.name]; }
    }
    ok := true;
  }

  method ValidateHost(world: World, j: Job, pvs: seq<PersistentVolume>, volIDs: seq<string>) returns (ok: bool, ghost log: seq<Event>)
    requires volIDs == VolumeIDs(pvs)
    modifies world`trace
    ensures world.trace == old(world.trace) + log
    ensures HostQuestion(j, pvs, log) && (ok <==> HostCleared(j, pvs, log))
  {
    log := [];
    if !j.config.extensionsPresent { return true, log; }
    var connection := world.IsDriverConnected(AtValidation);
    log := [DriverConnected(AtValidation, connection)];
    if !connection { return true, log; }
    var v, validation := CallValidate(world, j.node, volIDs);
    log := log + validation;
    var rwx := IsRWXVolume(pvs);
    var iosInProgress := v.iosInProgress && !rwx;
    ok := true;
    if (v.connected && !j.taintpodmon) || iosInProgress || v.err.Some? {
      if !(j.config.skipValidation && j.taintnoexec) { ok := false; }
    }
  }

  lemma FenceAdded(trace: seq<Event>, driver: seq<Event>, fences: seq<seq<Event>>, one: seq<Event>)
    ensures trace + (driver + Join(fences)) + one == trace + (driver + Join(fences + [one]))
    ensures AllFenced(fences + [one]) <==> AllFenced(fences) && EndedWell(one)
  {
    JoinAdded(fences, one);
    Regroup(driver, Join(fences), one);
    Regroup(trace, driver + Join(fences), one);
    assert (fences + [one])[|fences|] == one;
    if AllFenced(fences + [one]) {
      forall i | 0 <= i < |fences| ensures EndedWell(fences[i]) { assert (fences + [one])[i] == fences[i]; }
    }
  }

  method FenceVolumes(world: World, j: Job, volumes: seq<string>)
    returns (ok: bool, ghost driver: seq<Event>, ghost fences: seq<seq<Event>>)
    modifies world`trace
    ensures world.trace == old(world.trace) + (driver + Join(fences))
    ensures Fencing(j, volumes, driver, fences) && (ok <==> AllFenced(fences))
  {
    var connection := world.IsDriverConnected(AtFencing);
    driver, fences := [DriverConnected(AtFencing, connection)], [];
    ok := true;
    if connection {
      var nerrors := 0;
      for i := 0 to |volumes|
        invariant world.trace == old(world.trace) + (driver + Join(fences))
        invariant |fences| == i && forall k :: 0 <= k < i ==> FencesOne(j, volumes[k], fences[k])
        invariant nerrors >= 0 && (nerrors == 0 <==> AllFenced(fences))
      {
        var err, one := CallControllerUnpublishVolume(world, j, volumes[i]);
        if err.Some? { nerrors := nerrors + 1; }
        FenceAdded(old(world.trace), driver, fences, one);
        fences := fences + [one];
      }
      ok := nerrors == 0;
    }
  }

  /** One attachment: a second try after any error. */
  method DeleteAttachmentTwice(world: World, name: string) returns (err: Failure, ghost log: seq<Event>)
    modifies world`trace
    ensures world.trace == old(world.trace) + log
    ensures DetachesOne(name, log) && log[|log| - 1].err == err
  {
    err := world.Do(DeleteAttachment(name));
    log := [Did(DeleteAttachment(name), err)];
    if err.Some? {
      err := world.Do(DeleteAttachment(name));
      log := log + [Did(DeleteAttachment(name), err)];
    }
  }

  method DeleteAttachments(world: World, names: seq<string>) returns (ok: bool, ghost detaches: seq<seq<Event>>)
    modifies world`trace
    ensures world.trace == old(world.trace) + Join(detaches)
    ensures Detaching(names, detaches) && (ok <==> AllDetached(names, detaches))
  {
    detaches := [];
    for i := 0 to |names|
      invariant world.trace == old(world.trace) + Join(detaches)
      invariant |detaches| == i
      invariant forall k :: 0 <= k < i ==> DetachesOne(names[k], detaches[k]) && IsDetached(detaches[k])
    {
      var err, one := DeleteAttachmentTwice(world, names[i]);
      JoinAdded(detaches, one);
      detaches := detaches + [one];
      if err.Some? && !Contains(err.value.message, "not found") { return false, detaches; }
    }
    ok := true;
  }

  /** The whole of a clean-up. A run is stale when the stored record names another instance of the pod. */
  predicate CleanupRun(j: Job, stale: bool, r: Run) {
    if stale then r == NO_RUN
    else
      && |r.volumes| == 1 && r.volumes[0].PVsRead? && r.volumes[0].podKey == j.Key()
      && (r.volumes[0].pvs.Ok? ==> r.volumes[0].soFar == |r.volumes[0].pvs.value|)
      && if !VolumesKnown(j, r) then r == NO_RUN.(volumes := r.volumes)
         else
           && LookUps(j, r.PVs(), r.attachments)
           && if !LookedUp(j, r.PVs(), r.attachments)
              then r == NO_RUN.(volumes := r.volumes, attachments := r.attachments)
              else HostRun(j, r)
  }

  predicate HostRun(j: Job, r: Run) {
    && HostQuestion(j, r.PVs(), r.host)
    && if !HostCleared(j, r.PVs(), r.host)
       then r == NO_RUN.(volumes := r.volumes, attachments := r.attachments, host := r.host)
       else
         && Fencing(j, VolumeIDs(r.PVs()), r.driver, r.fences)
         && if !AllFenced(r.fences) then r.taint == [] && r.detaches == [] && r.delete == []
            else RemovalRun(j, Names(r.attachments), r.taint, r.detaches, r.delete)
  }

  predicate RemovalRun(j: Job, names: seq<string>, taint: seq<Event>, detaches: seq<seq<Event>>, delete: seq<Event>) {
    && |taint| == 1 && taint[0].Did? && taint[0].call == j.TaintCall()
    && if taint[0].err.Some? then detaches == [] && delete == []
       else
         && Detaching(names, detaches)
         && if !AllDetached(names, detaches) then delete == []
            else |delete| == 1 && delete[0].Did? && delete[0].call == j.DeleteCall()
  }

  /** The pod was force deleted. */
  predicate ForceDeleted(delete: seq<Event>) {
    |delete| == 1 && delete[0].Did? && delete[0].err == None
  }

  ghost predicate IgnoredAsVolumeless(j: Job, r: Run) {
    j.config.ignoreVolumeless && r.volumes == [PVsRead(j.Key(), Ok([]), 0)]
  }

  ghost predicate Stale(infos: map<string, PodInfo>, pod: Pod) {
    KeyOf(pod) in infos && infos[KeyOf(pod)].podUID != pod.uid
  }

  method ControllerCleanupPod(cm: PodMonitor, world: World, j: Job) returns (done: bool, ghost r: Run)
    requires j.config == cm.config
    modifies cm`infos, world`trace
    ensures world.trace == old(world.trace) + r.Flat()
    ensures CleanupRun(j, Stale(old(cm.infos), j.pod), r)
    ensures done <==> IgnoredAsVolumeless(j, r) || ForceDeleted(r.delete)
    ensures cm.infos == if ForceDeleted(r.delete) then old(cm.infos) - {j.Key()} else old(cm.infos)
  {
    done, r := false, NO_RUN;
    var podKey := KeyOf(j.pod);
    if podKey in cm.infos && cm.infos[podKey].podUID != j.pod.uid {
      return;
    }
    var pvlist, soFar := world.ReadPVs(podKey);
    r := r.(volumes := [PVsRead(podKey, pvlist, soFar)]);
    FlatStarts(old(world.trace), r);
    if pvlist.Err? {
      return;
    }
    var pvs := pvlist.value;
    if cm.config.ignoreVolumeless && pvs == [] {
      return true, r;
    }
    var found, names, attachments := ReadAttachments(world, j, pvs);
    r := r.(attachments := attachments);
    FlatStarts(old(world.trace), r);
    if !found {
      return;
    }
    done, r := FencePod(cm, world, j, pvs, names, r);
    FlatStarts(old(world.trace), r);
  }

  lemma FlatStarts(before: seq<Event>, r: Run)
    ensures before + r.volumes + r.attachments + r.Rest() == before + r.Flat()
    ensures r.Rest() == [] ==> before + r.volumes + r.attachments == before + r.Flat()
    ensures r.attachments == r.Rest() == [] ==> before + r.volumes == before + r.Flat()
  {
  }

  lemma RestStarts(before: seq<Event>, r: Run)
    ensures before + r.host + (r.driver + Join(r.fences)) + r.Removal() == before + r.Rest()
    ensures r.Removal() == [] ==> before + r.host + (r.driver + Join(r.fences)) == before + r.Rest()
    ensures r.driver == [] && r.fences == [] && r.Removal() == [] ==> before + r.host == before + r.Rest()
  {
  }

  /** The middle of a clean-up: ask the array about the host, and fence the volumes. */
  method FencePod(cm: PodMonitor, world: World, j: Job, pvs: seq<PersistentVolume>, names: seq<string>, ghost before: Run)
    returns (done: bool, ghost r: Run)
    requires before.volumes != [] && before.volumes[0].PVsRead? && before.volumes[0].pvs == Ok(pvs)
    requires names == Names(before.attachments)
    modifies cm`infos, world`trace
    ensures r.volumes == before.volumes && r.attachments == before.attachments
    ensures world.trace == old(world.trace) + r.Rest()
    ensures HostRun(j, r)
    ensures done <==> ForceDeleted(r.delete)
    ensures cm.infos == if ForceDeleted(r.delete) then old(cm.infos) - {j.Key()} else old(cm.infos)
  {
    done, r := false, NO_RUN.(volumes := before.volumes, attachments := before.attachments);
    var volIDs := GetVolumeIDs(pvs);
    var cleared, host := ValidateHost(world, j, pvs, volIDs);
    r := r.(host := host);
    RestStarts(old(world.trace), r);
    if !cleared {
      return;
    }
    var fenced, driver, fences := FenceVolumes(world, j, volIDs);
    r := r.(driver := driver, fences := fences);
    RestStarts(old(world.trace), r);
    if !fenced {
      return;
    }
    ghost var taint, detaches, delete;
    done, taint, detaches, delete := RemovePod(cm, world, j, names);
    r := r.(taint := taint, detaches := detaches, delete := delete);
    RestStarts(old(world.trace), r);
  }

  /** The end of a clean-up: taint the node, delete the attachments, force delete the pod, forget its record. */
  method RemovePod(cm: PodMonitor, world: World, j: Job, names: seq<string>)
    returns (done: bool, ghost taint: seq<Event>, ghost detaches: seq<seq<Event>>, ghost delete: seq<Event>)
    modifies cm`infos, world`trace
    ensures world.trace == old(world.trace) + (taint + Join(detaches) + delete)
    ensures RemovalRun(j, names, taint, detaches, delete)
    ensures done <==> ForceDeleted(delete)
    ensures cm.infos == if ForceDeleted(delete) then old(cm.infos) - {j.Key()} else old(cm.infos)
  {
    done, detaches, delete := false, [], [];
    var err := world.Do(TaintNode(j.node.name, j.config.podmonTaint, NO_SCHEDULE, false));
    taint := [Did(TaintNode(j.node.name, j.config.podmonTaint, NO_SCHEDULE, false), err)];
    if err.Some? { return; }
    var detached, log := DeleteAttachments(world, names);
    detaches := log;
    if !detached { return; }
    err := world.Do(DeletePod(KeyOf(j.pod), j.pod.uid, true));
    delete := [Did(DeletePod(KeyOf(j.pod), j.pod.uid, true), err)];
    if err == None {
      cm.infos := cm.infos - {KeyOf(j.pod)};
      done := true;
    }
  }
}
