/** The attachments a clean-up deletes are those of its own volumes on its own node. */
module OwnAttachments {
  import opened Kube
  import opened World
  import opened ControllerCleanup
  import opened CleanupSafety
  import Cache = VolumeAttachmentProtocol

  /** Every attachment the clean-up found was returned by a look-up in some state of the cache's run. */
  ghost predicate FoundInCache(ss: seq<Cache.State>, attachments: seq<Event>) {
    forall i :: 0 <= i < |attachments| ==> FoundSomewhere(ss, attachments[i])
  }

  ghost predicate FoundSomewhere(ss: seq<Cache.State>, e: Event) {
    e.AttachmentRead? && e.attachment.Ok? && e.attachment.value.Some? ==>
      exists i :: 0 <= i < |ss| && Cache.Answers(ss[i], e.pv, e.node, e.attachment.value.value)
  }

  predicate IsOwn(j: Job, pvs: seq<PersistentVolume>, va: VolumeAttachment) {
    va.node == j.node.name && exists i :: 0 <= i < |pvs| && va.pv == Some(pvs[i].name)
  }

  /** With look-ups answered from the shared cache, under whatever reloads, deletes and creations went on beside it, a
      clean-up deletes only attachments of its own volumes on its own node, if no name of a volume holds a slash. */
  lemma DeletesOnlyOwnAttachments(ss: seq<Cache.State>, ts: seq<Cache.Step>, j: Job, stale: bool, r: Run, e: Event)
    requires Cache.Run(ss, ts) && Cache.CreatesSlashFree(ts)
    requires CleanupRun(j, stale, r) && FoundInCache(ss, r.attachments)
    requires forall i :: 0 <= i < |r.PVs()| ==> '/' !in r.PVs()[i].name
    requires e in r.Flat() && e.Did? && e.call.DeleteAttachment?
    ensures exists va: VolumeAttachment :: va.name == e.call.name && IsOwn(j, r.PVs(), va)
  {
    OnlyOwnEffects(j, stale, r);
    NamesMeaning(r.attachments, e.call.name);
    var i :| 0 <= i < |r.attachments| && FoundAt(r.attachments[i], e.call.name);
    var found := r.attachments[i];
    assert FoundSomewhere(ss, found);
    var k :| 0 <= k < |ss| && Cache.Answers(ss[k], found.pv, found.node, found.attachment.value.value);
    LookedUpForItself(j, stale, r, i);
    Cache.AnswersAreRight(ss, ts, k, found.pv, found.node, found.attachment.value.value);
    assert IsOwn(j, r.PVs(), found.attachment.value.value);
  }

  lemma LookedUpForItself(j: Job, stale: bool, r: Run, i: nat)
    requires CleanupRun(j, stale, r) && i < |r.attachments|
    ensures i < |r.PVs()| && r.attachments[i].AttachmentRead? && r.attachments[i].pv == r.PVs()[i].name && r.attachments[i].node == j.node.name
  {
  }
}
