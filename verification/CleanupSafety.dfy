/** What every clean-up run of the controller guarantees, stated on its log alone. */
module CleanupSafety {
  import opened Kube
  import opened World
  import opened Monitor
  import opened ControllerCleanup
  import opened Promises

  lemma MembersOfRun(r: Run, e: Event)
    ensures e in r.Flat() <==> e in r.volumes || e in r.attachments || e in r.host || e in r.driver ||
                               e in Join(r.fences) || e in r.taint || e in Join(r.detaches) || e in r.delete
  {
    assert e in r.Flat() <==> e in r.volumes || e in r.attachments || e in r.Rest();
    assert e in r.Rest() <==> e in r.host || e in r.driver || e in Join(r.fences) || e in r.Removal();
    assert e in r.Removal() <==> e in r.taint || e in Join(r.detaches) || e in r.delete;
  }

  /** Nothing, or one event of the given rank. */
  predicate AtMostOne(log: seq<Event>, rank: nat) {
    log == [] || (|log| == 1 && Rank(log[0]) == rank)
  }

  /** The phases without helpers. */
  ghost predicate PlainPhases(j: Job, r: Run) {
    && AtMostOne(r.volumes, 0)
    && (forall i :: 0 <= i < |r.attachments| ==> Rank(r.attachments[i]) == 1)
    && (r.host == [] || Rank(r.host[0]) == 2) && |r.host| <= 2 && (|r.host| == 2 ==> Rank(r.host[1]) == 3)
    && AtMostOne(r.driver, 4)
    && AtMostOne(r.taint, 6) && (r.taint != [] ==> r.taint[0].Did? && r.taint[0].call == j.TaintCall())
    && AtMostOne(r.delete, 8) && (r.delete != [] ==> r.delete[0].Did? && r.delete[0].call == j.DeleteCall())
  }

  /** What a run's phases look like wherever it stopped. */
  ghost predicate Shaped(j: Job, r: Run) {
    && PlainPhases(j, r)
    && (r.fences == [] || Fencing(j, VolumeIDs(r.PVs()), r.driver, r.fences))
    && (r.detaches == [] || Detaching(Names(r.attachments), r.detaches))
  }

  lemma RunIsShaped(j: Job, stale: bool, r: Run)
    requires CleanupRun(j, stale, r)
    ensures Shaped(j, r)
  {
    RunIsPlain(j, stale, r);
  }

  lemma RunIsPlain(j: Job, stale: bool, r: Run)
    requires CleanupRun(j, stale, r)
    ensures PlainPhases(j, r)
  {
    if r.host != [] || r.driver != [] { HostRunIsPlain(j, r); }
  }

  lemma HostRunIsPlain(j: Job, r: Run)
    requires HostRun(j, r)
    ensures (r.host == [] || Rank(r.host[0]) == 2) && |r.host| <= 2 && (|r.host| == 2 ==> Rank(r.host[1]) == 3)
    ensures AtMostOne(r.driver, 4)
    ensures AtMostOne(r.taint, 6) && (r.taint != [] ==> r.taint[0].Did? && r.taint[0].call == j.TaintCall())
    ensures AtMostOne(r.delete, 8) && (r.delete != [] ==> r.delete[0].Did? && r.delete[0].call == j.DeleteCall())
  {
  }

  predicate AboutFencing(j: Job, volumes: seq<string>, e: Event) {
    (e.Did? || e.Finished?) && e.call.ControllerUnpublish? && e.call.nodeID == j.node.csiNodeID && e.call.volume in volumes
  }

  lemma FenceEvents(j: Job, volumes: seq<string>, driver: seq<Event>, fences: seq<seq<Event>>, e: Event)
    requires Fencing(j, volumes, driver, fences) && e in Join(fences)
    ensures AboutFencing(j, volumes, e)
    ensures AllFenced(fences) && e.Finished? ==> e.err == None
  {
    JoinHas(fences, e);
    var i :| 0 <= i < |fences| && e in fences[i];
    var k :| 0 <= k < |fences[i]| && fences[i][k] == e;
    assert FencesOne(j, volumes[i], fences[i]);
  }

  predicate AboutDetaching(names: seq<string>, e: Event) {
    e.Did? && e.call.DeleteAttachment? && e.call.name in names
  }

  lemma DetachEvents(names: seq<string>, detaches: seq<seq<Event>>, e: Event)
    requires Detaching(names, detaches) && e in Join(detaches)
    ensures AboutDetaching(names, e)
  {
    JoinHas(detaches, e);
    var i :| 0 <= i < |detaches| && e in detaches[i];
    assert DetachesOne(names[i], detaches[i]);
  }

  /** Where an event of a run comes from. */
  ghost predicate Sourced(j: Job, r: Run, e: Event) {
    || (e in r.attachments && Rank(e) == 1)
    || Rank(e) in {0, 2, 3, 4}
    || (AboutFencing(j, VolumeIDs(r.PVs()), e) && e in Join(r.fences))
    || (AboutDetaching(Names(r.attachments), e) && e in Join(r.detaches))
    || (e.Did? && (e.call == j.TaintCall() || e.call == j.DeleteCall()))
  }

  lemma EventsAreSourced(j: Job, r: Run, e: Event)
    requires Shaped(j, r) && e in r.Flat()
    ensures Sourced(j, r, e)
  {
    MembersOfRun(r, e);
    if e in Join(r.fences) {
      FenceSourced(j, r, e);
    } else if e in Join(r.detaches) {
      DetachSourced(j, r, e);
    } else {
      PlainSourced(j, r, e);
    }
  }

  lemma PlainSourced(j: Job, r: Run, e: Event)
    requires PlainPhases(j, r)
    requires e in r.volumes || e in r.attachments || e in r.host || e in r.driver || e in r.taint || e in r.delete
    ensures Sourced(j, r, e)
  {
    if e in r.attachments {
      var i :| 0 <= i < |r.attachments| && r.attachments[i] == e;
    } else if e in r.host {
      var i :| 0 <= i < |r.host| && r.host[i] == e;
    }
  }

  lemma FenceSourced(j: Job, r: Run, e: Event)
    requires Shaped(j, r) && e in Join(r.fences)
    ensures AboutFencing(j, VolumeIDs(r.PVs()), e)
  {
    if r.fences != [] { FenceEvents(j, VolumeIDs(r.PVs()), r.driver, r.fences, e); }
  }

  lemma DetachSourced(j: Job, r: Run, e: Event)
    requires Shaped(j, r) && e in Join(r.detaches)
    ensures AboutDetaching(Names(r.attachments), e)
  {
    if r.detaches != [] { DetachEvents(Names(r.attachments), r.detaches, e); }
  }

  // ---------------------------------------------------------------- phase order

  function Rank(e: Event): nat {
    match e
    case PVsRead(_, _, _) => 0
    case AttachmentRead(_, _, _) => 1
    case DriverConnected(stage, _) => if stage == AtValidation then 2 else 4
    case Validated(_, _, _, _) => 3
    case Did(call, _) => CallRank(call)
    case Finished(call, _) => CallRank(call)
    case _ => 9
  }

  function CallRank(call: Call): nat {
    match call
    case ControllerUnpublish(_, _) => 5
    case TaintNode(_, _, _, _) => 6
    case DeleteAttachment(_) => 7
    case DeletePod(_, _, _) => 8
    case _ => 9
  }

  /** Only look-ups, fencing calls and detach calls may repeat. */
  predicate MayRepeat(rank: nat) { rank == 1 || rank == 5 || rank == 7 }

  ghost predicate InPhaseOrder(log: seq<Event>, low: int, high: int) {
    && (forall i :: 0 <= i < |log| ==> low <= Rank(log[i]) <= high)
    && (forall i, k :: 0 <= i < k < |log| ==>
          Rank(log[i]) < Rank(log[k]) || (Rank(log[i]) == Rank(log[k]) && MayRepeat(Rank(log[i]))))
  }

  lemma OrderedParts(a: seq<Event>, b: seq<Event>, low: int, mid: int, high: int)
    requires InPhaseOrder(a, low, mid) && InPhaseOrder(b, mid + 1, high) && low <= mid <= high
    ensures InPhaseOrder(a + b, low, high)
  {
  }

  lemma OneRank(log: seq<Event>, rank: nat)
    requires MayRepeat(rank) && forall e :: e in log ==> Rank(e) == rank
    ensures InPhaseOrder(log, rank, rank)
  {
    assert forall i :: 0 <= i < |log| ==> log[i] in log;
  }

  /** A clean-up only ever moves forward: volumes, look-ups, validation, fencing, taint, detach, delete; the
      validation, the taint and the delete are single calls. */
  lemma PhasesInOrder(j: Job, stale: bool, r: Run)
    requires CleanupRun(j, stale, r)
    ensures InPhaseOrder(r.Flat(), 0, 8)
  {
    RunIsShaped(j, stale, r);
    ReadsInOrder(j, r);
    SingleCallsInOrder(j, r);
    FencesInOrder(j, r);
    DetachesInOrder(j, r);
    PartsInOrder(r);
  }

  lemma ReadsInOrder(j: Job, r: Run)
    requires PlainPhases(j, r)
    ensures InPhaseOrder(r.volumes, 0, 0) && InPhaseOrder(r.attachments, 1, 1)
  {
  }

  lemma SingleCallsInOrder(j: Job, r: Run)
    requires PlainPhases(j, r)
    ensures InPhaseOrder(r.host, 2, 3) && InPhaseOrder(r.driver, 4, 4)
    ensures InPhaseOrder(r.taint, 6, 6) && InPhaseOrder(r.delete, 8, 8)
  {
  }

  lemma PartsInOrder(r: Run)
    requires InPhaseOrder(r.volumes, 0, 0) && InPhaseOrder(r.attachments, 1, 1) && InPhaseOrder(r.host, 2, 3)
    requires InPhaseOrder(r.driver, 4, 4) && InPhaseOrder(Join(r.fences), 5, 5)
    requires InPhaseOrder(r.taint, 6, 6) && InPhaseOrder(Join(r.detaches), 7, 7) && InPhaseOrder(r.delete, 8, 8)
    ensures InPhaseOrder(r.Flat(), 0, 8)
  {
    RemovalInOrder(r);
    OrderedParts(r.driver, Join(r.fences), 4, 4, 5);
    OrderedParts(r.host, r.driver + Join(r.fences), 2, 3, 5);
    OrderedParts(r.host + (r.driver + Join(r.fences)), r.Removal(), 2, 5, 8);
    OrderedParts(r.volumes, r.attachments, 0, 0, 1);
    OrderedParts(r.volumes + r.attachments, r.Rest(), 0, 1, 8);
  }

  lemma FencesInOrder(j: Job, r: Run)
    requires Shaped(j, r)
    ensures InPhaseOrder(Join(r.fences), 5, 5)
  {
    if r.fences != [] {
      forall e | e in Join(r.fences) ensures Rank(e) == 5 {
        FenceEvents(j, VolumeIDs(r.PVs()), r.driver, r.fences, e);
      }
      OneRank(Join(r.fences), 5);
    }
  }

  lemma RemovalInOrder(r: Run)
    requires InPhaseOrder(r.taint, 6, 6) && InPhaseOrder(Join(r.detaches), 7, 7) && InPhaseOrder(r.delete, 8, 8)
    ensures InPhaseOrder(r.Removal(), 6, 8)
  {
    OrderedParts(r.taint, Join(r.detaches), 6, 6, 7);
    OrderedParts(r.taint + Join(r.detaches), r.delete, 6, 7, 8);
  }

  lemma DetachesInOrder(j: Job, r: Run)
    requires Shaped(j, r)
    ensures InPhaseOrder(Join(r.detaches), 7, 7)
  {
    if r.detaches != [] {
      forall e | e in Join(r.detaches) ensures Rank(e) == 7 { DetachEvents(Names(r.attachments), r.detaches, e); }
      OneRank(Join(r.detaches), 7);
    }
  }

  // ---------------------------------------------------------------- what a force delete rests on

  /** The array was asked about exactly these volumes of this node, and its answer lets the clean-up pass. */
  ghost predicate ValidatedFor(j: Job, pvs: seq<PersistentVolume>, log: seq<Event>) {
    exists e :: e in log && e.Validated? && e.node == j.node.name && e.nodeID == j.node.csiNodeID &&
                e.volumes == VolumeIDs(pvs) && Clears(e.reply, j.taintpodmon, pvs)
  }

  lemma ClearsIff(j: Job, reply: Result<Reply>, pvs: seq<PersistentVolume>)
    ensures j.Passes(Interpret(reply), AnyRWX(pvs)) <==> Clears(reply, j.taintpodmon, pvs)
  {
    if i, k :| 0 <= i < |pvs| && 0 <= k < |pvs[i].accessModes| && IsRWXMode(pvs[i].accessModes[k]) {
      assert pvs[i].accessModes[k] in ["RWX", "ReadWriteMany"];
    }
    if i, k :| 0 <= i < |pvs| && 0 <= k < |pvs[i].accessModes| && pvs[i].accessModes[k] in ["RWX", "ReadWriteMany"] {
      assert IsRWXMode(pvs[i].accessModes[k]);
    }
  }

  /** Fencing the volume ended in success, by a successful call when calls are allowed at all. */
  ghost predicate FencedOff(j: Job, volume: string, log: seq<Event>) {
    && Finished(ControllerUnpublish(j.node.csiNodeID, volume), None) in log
    && (0 < j.config.maxRetries ==> Did(ControllerUnpublish(j.node.csiNodeID, volume), None) in log)
  }

  predicate FoundAt(e: Event, name: string) {
    e.AttachmentRead? && e.attachment.Ok? && e.attachment.value.Some? && e.attachment.value.value.name == name
  }

  /** The attachment is gone: it was deleted, or a second try found nothing. */
  ghost predicate Detached(log: seq<Event>, name: string) {
    || Did(DeleteAttachment(name), None) in log
    || exists i :: 0 < i < |log| && SecondTryFoundNothing(name, log[i - 1], log[i])
  }

  predicate SecondTryFoundNothing(name: string, first: Event, second: Event) {
    && first.Did? && first.call == DeleteAttachment(name) && first.err.Some?
    && second.Did? && second.call == DeleteAttachment(name) && SaysNotFound(second.err)
  }

  ghost predicate DeleteJustified(j: Job, pvs: seq<PersistentVolume>, log: seq<Event>) {
    && log != [] && log[0] == PVsRead(j.pod.namespace + "/" + j.pod.name, Ok(pvs), |pvs|)
    && (j.config.extensionsPresent ==>
          || DriverConnected(AtValidation, false) in log
          || (j.config.skipValidation && j.taintnoexec)
          || ValidatedFor(j, pvs, log))
    && (DriverConnected(AtFencing, false) in log ||
        forall pv :: pv in pvs && pv.csiHandle.Some? ==> FencedOff(j, pv.csiHandle.value, log))
    && Did(TaintNode(j.node.name, j.config.podmonTaint, "NoSchedule", false), None) in log
    && (forall pv :: pv in pvs ==>
          exists e :: e in log && e.AttachmentRead? && e.pv == pv.name && e.node == j.node.name && e.attachment.Ok?)
    && (forall e, name :: e in log && FoundAt(e, name) ==> Detached(log, name))
    && log[|log| - 1].Did? && log[|log| - 1].call == DeletePod(j.pod.namespace + "/" + j.pod.name, j.pod.uid, true)
  }

  /** The force delete comes last, and only after everything it relies on has succeeded. */
  lemma DeleteIsJustified(j: Job, stale: bool, r: Run)
    requires CleanupRun(j, stale, r) && r.delete != []
    ensures !stale && DeleteJustified(j, r.PVs(), r.Flat())
  {
    RunIsShaped(j, stale, r);
    AllFoundAreDetached(j, r);
    WentThrough(j, r);
  }

  /** A run that passed every check. */
  lemma WentThrough(j: Job, r: Run)
    requires r.volumes == [PVsRead(j.Key(), Ok(r.PVs()), |r.PVs()|)]
    requires LookUps(j, r.PVs(), r.attachments) && LookedUp(j, r.PVs(), r.attachments) && HostCleared(j, r.PVs(), r.host)
    requires Fencing(j, VolumeIDs(r.PVs()), r.driver, r.fences) && AllFenced(r.fences) && r.taint == [Did(j.TaintCall(), None)]
    requires forall e, name :: e in r.Flat() && FoundAt(e, name) ==> Detached(r.Flat(), name)
    requires r.delete != [] && Last(r.delete).Did? && Last(r.delete).call == j.DeleteCall()
    ensures DeleteJustified(j, r.PVs(), r.Flat())
  {
    Ends(r);
    HostIsCleared(j, r);
    AllFencedOff(j, r);
    MembersOfRun(r, r.taint[0]);
    AllLookedUp(j, r);
  }

  lemma AllFencedOff(j: Job, r: Run)
    requires Fencing(j, VolumeIDs(r.PVs()), r.driver, r.fences) && AllFenced(r.fences)
    ensures DriverConnected(AtFencing, false) in r.Flat() ||
            forall pv :: pv in r.PVs() && pv.csiHandle.Some? ==> FencedOff(j, pv.csiHandle.value, r.Flat())
  {
    if r.driver[0].connected {
      forall pv | pv in r.PVs() && pv.csiHandle.Some? ensures FencedOff(j, pv.csiHandle.value, r.Flat()) {
        VolumeIDsMeaning(r.PVs(), pv.csiHandle.value);
        FencingCounts(j, r, pv.csiHandle.value);
      }
    } else {
      MembersOfRun(r, r.driver[0]);
    }
  }

  lemma AllFoundAreDetached(j: Job, r: Run)
    requires Shaped(j, r) && AllDetached(Names(r.attachments), r.detaches) && Detaching(Names(r.attachments), r.detaches)
    ensures forall e, name :: e in r.Flat() && FoundAt(e, name) ==> Detached(r.Flat(), name)
  {
    forall e, name | e in r.Flat() && FoundAt(e, name) ensures Detached(r.Flat(), name) {
      FoundByLookUp(j, r, e, name);
      NameIsDetached(j, r, name);
    }
  }

  lemma AllLookedUp(j: Job, r: Run)
    requires LookedUp(j, r.PVs(), r.attachments) && LookUps(j, r.PVs(), r.attachments)
    ensures forall pv :: pv in r.PVs() ==>
              exists e :: e in r.Flat() && e.AttachmentRead? && e.pv == pv.name && e.node == j.node.name && e.attachment.Ok?
  {
    forall pv | pv in r.PVs()
      ensures exists e :: e in r.Flat() && e.AttachmentRead? && e.pv == pv.name && e.node == j.node.name && e.attachment.Ok?
    {
      var i :| 0 <= i < |r.PVs()| && r.PVs()[i] == pv;
      MembersOfRun(r, r.attachments[i]);
    }
  }

  lemma HostIsCleared(j: Job, r: Run)
    requires HostCleared(j, r.PVs(), r.host)
    ensures j.config.extensionsPresent ==>
              || DriverConnected(AtValidation, false) in r.Flat()
              || (j.config.skipValidation && j.taintnoexec)
              || ValidatedFor(j, r.PVs(), r.Flat())
  {
    forall i | 0 <= i < |r.host| ensures r.host[i] in r.Flat() { MembersOfRun(r, r.host[i]); }
    if |r.host| == 2 && r.host[1].Validated? { ClearsIff(j, r.host[1].reply, r.PVs()); }
  }

  /** The log begins with the first phase and ends with the last one reached. */
  lemma Ends(r: Run)
    ensures r.volumes != [] ==> r.Flat() != [] && r.Flat()[0] == r.volumes[0]
    ensures r.delete != [] ==> r.Flat() != [] && Last(r.Flat()) == Last(r.delete)
    ensures r.delete == r.driver == r.taint == [] && r.fences == r.detaches == [] ==>
              && (r.host != [] ==> r.Flat() != [] && Last(r.Flat()) == Last(r.host))
              && (r.host == [] && r.attachments != [] ==> r.Flat() != [] && Last(r.Flat()) == Last(r.attachments))
              && (r.host == r.attachments == [] ==> r.Flat() == r.volumes)
    ensures r.delete == [] && r.detaches == [] && r.taint != [] ==> r.Flat() != [] && Last(r.Flat()) == Last(r.taint)
  {
    if r.delete == [] && r.detaches == [] && r.taint != [] { assert r.Removal() == r.taint; }
  }

  function Last(log: seq<Event>): Event
    requires log != []
  {
    log[|log| - 1]
  }

  lemma FencingCounts(j: Job, r: Run, v: string)
    requires Fencing(j, VolumeIDs(r.PVs()), r.driver, r.fences) && AllFenced(r.fences) && r.driver[0].connected
    requires v in VolumeIDs(r.PVs())
    ensures FencedOff(j, v, r.Flat())
  {
    var i :| 0 <= i < |r.fences| && VolumeIDs(r.PVs())[i] == v;
    var log := r.fences[i];
    assert FencesOne(j, v, log) && EndedWell(log);
    forall e | e in log ensures e in r.Flat() {
      JoinHas(r.fences, e);
      MembersOfRun(r, e);
    }
    assert log[|log| - 1] == Finished(j.Fence(v), None);
    if 0 < j.config.maxRetries { SuccessWasAnswered(j.Fence(v), j.config.maxRetries, log); }
  }

  lemma {:induction false} NamesMeaning(log: seq<Event>, name: string)
    ensures name in Names(log) <==> exists i :: 0 <= i < |log| && FoundAt(log[i], name)
  {
    if log != [] {
      var before := log[..|log| - 1];
      NamesMeaning(before, name);
      if name in Names(before) {
        var i :| 0 <= i < |before| && FoundAt(before[i], name);
        assert FoundAt(log[i], name);
      } else if name in Names(log) {
        assert FoundAt(log[|log| - 1], name);
      }
      assert forall i :: 0 <= i < |before| ==> before[i] == log[i];
    }
  }

  /** Only look-ups tell of attachments. */
  lemma FoundByLookUp(j: Job, r: Run, e: Event, name: string)
    requires Shaped(j, r) && e in r.Flat() && FoundAt(e, name)
    ensures name in Names(r.attachments)
  {
    EventsAreSourced(j, r, e);
    NamesMeaning(r.attachments, name);
  }

  lemma NameIsDetached(j: Job, r: Run, name: string)
    requires Detaching(Names(r.attachments), r.detaches) && AllDetached(Names(r.attachments), r.detaches)
    requires name in Names(r.attachments)
    ensures Detached(r.Flat(), name)
  {
    var i :| 0 <= i < |r.detaches| && Names(r.attachments)[i] == name;
    assert DetachesOne(name, r.detaches[i]) && IsDetached(r.detaches[i]);
    DetachCounts(r.detaches, i, name);
    var before := r.volumes + r.attachments + (r.host + (r.driver + Join(r.fences))) + r.taint;
    DetachedStays(before, Join(r.detaches), r.delete, name);
    assert before + Join(r.detaches) + r.delete == r.Flat();
  }

  lemma {:induction false} DetachCounts(detaches: seq<seq<Event>>, i: nat, name: string)
    requires i < |detaches| && DetachesOne(name, detaches[i]) && IsDetached(detaches[i])
    ensures Detached(Join(detaches), name)
  {
    var before, last := detaches[..|detaches| - 1], detaches[|detaches| - 1];
    if i < |before| {
      DetachCounts(before, i, name);
      DetachedStays([], Join(before), last, name);
      assert [] + Join(before) + last == Join(detaches);
    } else {
      assert Detached(last, name) by {
        if last[|last| - 1].err == None {
          assert last[|last| - 1] == Did(DeleteAttachment(name), None);
        } else {
          assert SecondTryFoundNothing(name, last[0], last[1]);
        }
      }
      DetachedStays(Join(before), last, [], name);
      assert Join(before) + last + [] == Join(detaches);
    }
  }

  lemma DetachedStays(a: seq<Event>, b: seq<Event>, c: seq<Event>, name: string)
    requires Detached(b, name)
    ensures Detached(a + b + c, name)
  {
    var all := a + b + c;
    if Did(DeleteAttachment(name), None) !in b {
      var i :| 0 < i < |b| && SecondTryFoundNothing(name, b[i - 1], b[i]);
      assert all[|a| + i] == b[i] && all[|a| + i - 1] == b[i - 1];
    }
  }

  // ---------------------------------------------------------------- when the delete is reached

  /** The reasons a clean-up stops short of the delete, read off its log. */
  ghost predicate Aborted(j: Job, log: seq<Event>) {
    || log == [] // the record names another instance
    || (exists e :: e in log && e.Finished? && e.err.Some?) // a volume was not fenced
    || StoppedBy(j, log[|log| - 1])
  }

  /** A last event that ends the clean-up. */
  predicate StoppedBy(j: Job, last: Event) {
    match last
    case PVsRead(_, pvs, _) => pvs.Err? || (pvs.value == [] && j.config.ignoreVolumeless)
    case AttachmentRead(_, _, attachment) => attachment.Err?
    case DriverConnected(stage, connected) => stage == AtValidation && connected
    case Validated(_, _, _, _) => true
    case Did(call, err) => !call.DeletePod? && err.Some? && !(call.DeleteAttachment? && SaysNotFound(err))
    case _ => false
  }

  /** The pod is force deleted unless one of those reasons stopped the run. */
  lemma DeleteUnlessAborted(j: Job, stale: bool, r: Run)
    requires CleanupRun(j, stale, r)
    ensures r.delete != [] <==> !Aborted(j, r.Flat())
  {
    RunIsShaped(j, stale, r);
    if r.delete != [] {
      DeleteNotAborted(j, r);
    } else if r.detaches != [] {
      StuckAttachment(j, r);
    } else if r.taint == [] && r.driver != [] {
      UnfencedVolume(j, r);
    } else {
      StoppedEarly(j, stale, r);
    }
  }

  lemma StoppedEarly(j: Job, stale: bool, r: Run)
    requires CleanupRun(j, stale, r) && r.delete == [] && r.detaches == [] && (r.taint == [] ==> r.driver == [])
    ensures Aborted(j, r.Flat())
  {
    Ends(r);
  }

  lemma DeleteNotAborted(j: Job, r: Run)
    requires Shaped(j, r) && AllFenced(r.fences) && r.delete != []
    ensures !Aborted(j, r.Flat())
  {
    Ends(r);
    forall e | e in r.Flat() && e.Finished? ensures e.err == None { FinishedWell(j, r, e); }
  }

  lemma FinishedWell(j: Job, r: Run, e: Event)
    requires Shaped(j, r) && AllFenced(r.fences) && e in r.Flat() && e.Finished?
    ensures e.err == None
  {
    EventsAreSourced(j, r, e);
    if r.fences != [] { FenceEvents(j, VolumeIDs(r.PVs()), r.driver, r.fences, e); }
  }

  lemma StuckAttachment(j: Job, r: Run)
    requires CleanupRun(j, false, r) && r.delete == [] && r.detaches != []
    ensures r.Flat() != [] && StoppedBy(j, r.Flat()[|r.Flat()| - 1])
  {
    var last := r.detaches[|r.detaches| - 1];
    assert DetachesOne(Names(r.attachments)[|r.detaches| - 1], last) && !IsDetached(last);
    assert r.Flat()[|r.Flat()| - 1] == last[|last| - 1];
  }

  lemma UnfencedVolume(j: Job, r: Run)
    requires CleanupRun(j, false, r) && r.driver != [] && r.taint == []
    ensures exists e :: e in r.Flat() && e.Finished? && e.err.Some?
  {
    var i :| 0 <= i < |r.fences| && !EndedWell(r.fences[i]);
    assert FencesOne(j, VolumeIDs(r.PVs())[i], r.fences[i]);
    var e := r.fences[i][|r.fences[i]| - 1];
    JoinHas(r.fences, e);
    MembersOfRun(r, e);
  }

  // ---------------------------------------------------------------- what the array's answer decides

  /** The array does not stand in the way of the clean-up. */
  ghost predicate MayGoOn(j: Job, r: Run) {
    (j.config.skipValidation && j.taintnoexec) || ValidatedFor(j, r.PVs(), r.Flat())
  }

  /** When the driver can be asked, the clean-up goes on to fence the volumes exactly when validation may be skipped on a
      node tainted NoExecute, or the array answered for this node and these volumes, and its answer clears the host. It
      ends with the question exactly when not. */
  lemma ValidationDecides(j: Job, stale: bool, r: Run)
    requires CleanupRun(j, stale, r) && DriverConnected(AtValidation, true) in r.Flat()
    ensures (exists connected :: DriverConnected(AtFencing, connected) in r.Flat()) <==> MayGoOn(j, r)
    ensures Last(r.Flat()).Validated? || Last(r.Flat()) == DriverConnected(AtValidation, true) <==> !MayGoOn(j, r)
  {
    HostIsAsked(j, stale, r);
    AskedRun(j, stale, r);
    FirstOfHost(j, r.PVs(), r.host);
    RunIsShaped(j, stale, r);
    ClearedIff(j, r);
    if HostCleared(j, r.PVs(), r.host) {
      GoesOn(j, stale, r);
    } else {
      EndsAtHost(j, r);
    }
  }

  lemma GoesOn(j: Job, stale: bool, r: Run)
    requires CleanupRun(j, stale, r) && HostRun(j, r) && HostCleared(j, r.PVs(), r.host)
    ensures exists connected :: DriverConnected(AtFencing, connected) in r.Flat()
    ensures r.Flat() != [] && Rank(Last(r.Flat())) >= 4
  {
    assert Fencing(j, VolumeIDs(r.PVs()), r.driver, r.fences);
    MembersOfRun(r, r.driver[0]);
    assert DriverConnected(AtFencing, r.driver[0].connected) in r.Flat();
    LastIsLater(j, stale, r);
  }

  /** Only the host phase asks for the connection at validation. */
  lemma HostIsAsked(j: Job, stale: bool, r: Run)
    requires CleanupRun(j, stale, r) && DriverConnected(AtValidation, true) in r.Flat()
    ensures DriverConnected(AtValidation, true) in r.host
  {
    RunIsShaped(j, stale, r);
    OfHost(j, r, DriverConnected(AtValidation, true));
  }

  lemma AskedRun(j: Job, stale: bool, r: Run)
    requires CleanupRun(j, stale, r) && r.host != []
    ensures !stale && HostRun(j, r)
  {
  }

  lemma FirstOfHost(j: Job, pvs: seq<PersistentVolume>, host: seq<Event>)
    requires HostQuestion(j, pvs, host) && DriverConnected(AtValidation, true) in host
    ensures host[0] == DriverConnected(AtValidation, true)
  {
  }

  lemma OfHost(j: Job, r: Run, e: Event)
    requires Shaped(j, r) && e in r.Flat() && 2 <= Rank(e) <= 3
    ensures e in r.host
  {
    MembersOfRun(r, e);
    OtherRanks(j, r);
    if e in Join(r.fences) {
      FenceSourced(j, r, e);
    } else if e in Join(r.detaches) {
      DetachSourced(j, r, e);
    }
  }

  lemma OtherRanks(j: Job, r: Run)
    requires PlainPhases(j, r)
    ensures forall e :: e in r.volumes || e in r.attachments || e in r.driver || e in r.taint || e in r.delete ==> !(2 <= Rank(e) <= 3)
  {
    assert forall i :: 0 <= i < |r.attachments| ==> Rank(r.attachments[i]) == 1;
  }

  lemma ClearedIff(j: Job, r: Run)
    requires Shaped(j, r) && HostQuestion(j, r.PVs(), r.host) && r.host != [] && r.host[0] == DriverConnected(AtValidation, true)
    ensures HostCleared(j, r.PVs(), r.host) <==> MayGoOn(j, r)
  {
    if |r.host| == 2 {
      ClearsIff(j, r.host[1].reply, r.PVs());
      MembersOfRun(r, r.host[1]);
    }
    if ValidatedFor(j, r.PVs(), r.Flat()) { ValidatedByHost(j, r); }
  }

  /** The validation that clears the host is the one of the host phase. */
  lemma ValidatedByHost(j: Job, r: Run)
    requires Shaped(j, r) && HostQuestion(j, r.PVs(), r.host) && r.host != [] && ValidatedFor(j, r.PVs(), r.Flat())
    ensures |r.host| == 2 && Clears(r.host[1].reply, j.taintpodmon, r.PVs())
  {
    var e :| e in r.Flat() && e.Validated? && e.node == j.node.name && e.nodeID == j.node.csiNodeID &&
             e.volumes == VolumeIDs(r.PVs()) && Clears(e.reply, j.taintpodmon, r.PVs());
    OfHost(j, r, e);
    SecondOfHost(j, r.PVs(), r.host, e);
  }

  lemma SecondOfHost(j: Job, pvs: seq<PersistentVolume>, host: seq<Event>, e: Event)
    requires HostQuestion(j, pvs, host) && e in host && e.Validated?
    ensures |host| == 2 && host[1] == e
  {
  }

  /** A run that got past the validation ends with a later event. */
  lemma LastIsLater(j: Job, stale: bool, r: Run)
    requires CleanupRun(j, stale, r) && r.driver != []
    ensures r.Flat() != [] && Rank(Last(r.Flat())) >= 4
  {
    PhasesInOrder(j, stale, r);
    MembersOfRun(r, r.driver[0]);
    var k :| 0 <= k < |r.Flat()| && r.Flat()[k] == r.driver[0];
    RunIsShaped(j, stale, r);
  }

  lemma EndsAtHost(j: Job, r: Run)
    requires PlainPhases(j, r) && HostRun(j, r) && !HostCleared(j, r.PVs(), r.host)
    ensures r.host != [] && r.Flat() != [] && Last(r.Flat()) == Last(r.host)
    ensures Last(r.host).Validated? || Last(r.host) == r.host[0]
    ensures forall connected :: DriverConnected(AtFencing, connected) !in r.Flat()
  {
    Ends(r);
    assert HostQuestion(j, r.PVs(), r.host) && r.host != [];
    forall connected ensures DriverConnected(AtFencing, connected) !in r.Flat() { NotFenced(j, r, connected); }
  }

  lemma NotFenced(j: Job, r: Run, connected: bool)
    requires r == NO_RUN.(volumes := r.volumes, attachments := r.attachments, host := r.host)
    requires PlainPhases(j, r)
    ensures DriverConnected(AtFencing, connected) !in r.Flat()
  {
    MembersOfRun(r, DriverConnected(AtFencing, connected));
    assert forall i :: 0 <= i < |r.attachments| ==> Rank(r.attachments[i]) == 1;
  }

  // ---------------------------------------------------------------- frame

  /** What a clean-up may do: fence its own volumes on its own node, taint that node, delete attachments it looked
      up, and force delete its own pod instance. */
  predicate OwnEffect(j: Job, r: Run, call: Call) {
    match call
    case ControllerUnpublish(nodeID, volume) => nodeID == j.node.csiNodeID && IsHandle(r.PVs(), volume)
    case TaintNode(node, key, effect, remove) => node == j.node.name && key == j.config.podmonTaint && effect == "NoSchedule" && !remove
    case DeleteAttachment(name) => exists i :: 0 <= i < |r.attachments| && FoundAt(r.attachments[i], name)
    case DeletePod(podKey, uid, force) => podKey == j.pod.namespace + "/" + j.pod.name && uid == j.pod.uid && force
    case _ => false
  }

  predicate IsHandle(pvs: seq<PersistentVolume>, volume: string) {
    exists i :: 0 <= i < |pvs| && pvs[i].csiHandle == Some(volume)
  }

  lemma OnlyOwnEffects(j: Job, stale: bool, r: Run)
    requires CleanupRun(j, stale, r)
    ensures forall e :: e in r.Flat() && e.Did? ==> OwnEffect(j, r, e.call)
  {
    RunIsShaped(j, stale, r);
    forall e | e in r.Flat() && e.Did? ensures OwnEffect(j, r, e.call) {
      EventsAreSourced(j, r, e);
      SourcedIsOwn(j, r, e);
    }
  }

  lemma SourcedIsOwn(j: Job, r: Run, e: Event)
    requires Sourced(j, r, e) && e.Did?
    ensures OwnEffect(j, r, e.call)
  {
    match e.call {
      case ControllerUnpublish(_, volume) => VolumeIDsMeaning(r.PVs(), volume);
      case DeleteAttachment(name) => NamesMeaning(r.attachments, name);
      case _ =>
    }
  }

  /** The only delete of a pod is the one the run ends with. */
  lemma DeletesAreLast(j: Job, stale: bool, r: Run, p: nat)
    requires CleanupRun(j, stale, r) && p < |r.Flat()| && r.Flat()[p].Did? && r.Flat()[p].call.DeletePod?
    ensures r.delete == [r.Flat()[p]] && p == |r.Flat()| - 1
    ensures r.Flat()[p].call == DeletePod(j.pod.namespace + "/" + j.pod.name, j.pod.uid, true)
  {
    RunIsShaped(j, stale, r);
    DeletesAreDeletes(j, r, r.Flat()[p]);
    OneDelete(j, r, r.Flat()[p]);
    Ends(r);
    PhasesInOrder(j, stale, r);
    OnlyAtTheEnd(r.Flat(), p);
  }

  lemma OneDelete(j: Job, r: Run, e: Event)
    requires PlainPhases(j, r) && e in r.delete
    ensures r.delete == [e] && Rank(e) == 8
    ensures e.Did? && e.call == DeletePod(j.pod.namespace + "/" + j.pod.name, j.pod.uid, true)
  {
  }

  lemma OnlyAtTheEnd(log: seq<Event>, p: nat)
    requires InPhaseOrder(log, 0, 8) && p < |log| && Rank(log[p]) == Rank(log[|log| - 1]) == 8
    ensures p == |log| - 1
  {
  }

  lemma DeletesAreDeletes(j: Job, r: Run, e: Event)
    requires Shaped(j, r) && e in r.Flat() && e.Did? && e.call.DeletePod?
    ensures e in r.delete
  {
    MembersOfRun(r, e);
    if e in Join(r.fences) {
      FenceSourced(j, r, e);
    } else if e in Join(r.detaches) {
      DetachSourced(j, r, e);
    } else {
      PlainRanks(j, r);
    }
  }

  lemma PlainRanks(j: Job, r: Run)
    requires PlainPhases(j, r)
    ensures forall e :: e in r.volumes || e in r.attachments || e in r.host || e in r.driver || e in r.taint ==> Rank(e) < 8
  {
    assert forall i :: 0 <= i < |r.attachments| ==> Rank(r.attachments[i]) < 8;
    assert forall i :: 0 <= i < |r.host| ==> Rank(r.host[i]) < 8;
  }

  /** A failure to fence one volume keeps none of the others from being tried. */
  lemma EveryVolumeIsTried(j: Job, stale: bool, r: Run, volume: string)
    requires CleanupRun(j, stale, r) && DriverConnected(AtFencing, true) in r.driver && IsHandle(r.PVs(), volume)
    ensures exists e :: e in r.Flat() && e.Finished? && e.call == ControllerUnpublish(j.node.csiNodeID, volume)
  {
    VolumeIDsMeaning(r.PVs(), volume);
    var i :| 0 <= i < |VolumeIDs(r.PVs())| && VolumeIDs(r.PVs())[i] == volume;
    ConnectedFencing(j, stale, r);
    FenceIsFinished(j, r, i);
  }

  lemma ConnectedFencing(j: Job, stale: bool, r: Run)
    requires CleanupRun(j, stale, r) && DriverConnected(AtFencing, true) in r.driver
    ensures Fencing(j, VolumeIDs(r.PVs()), r.driver, r.fences) && |r.fences| == |VolumeIDs(r.PVs())|
  {
    FencedRun(j, stale, r);
    HostRunFences(j, r);
  }

  lemma FencedRun(j: Job, stale: bool, r: Run)
    requires CleanupRun(j, stale, r) && r.driver != []
    ensures HostRun(j, r)
  {
  }

  lemma HostRunFences(j: Job, r: Run)
    requires HostRun(j, r) && r.driver != []
    ensures Fencing(j, VolumeIDs(r.PVs()), r.driver, r.fences)
  {
  }

  lemma FenceIsFinished(j: Job, r: Run, i: nat)
    requires Fencing(j, VolumeIDs(r.PVs()), r.driver, r.fences) && i < |r.fences| == |VolumeIDs(r.PVs())|
    ensures exists e :: e in r.Flat() && e.Finished? && e.call == ControllerUnpublish(j.node.csiNodeID, VolumeIDs(r.PVs())[i])
  {
    assert FencesOne(j, VolumeIDs(r.PVs())[i], r.fences[i]);
    var e := r.fences[i][|r.fences[i]| - 1];
    JoinHas(r.fences, e);
    MembersOfRun(r, e);
  }
}
