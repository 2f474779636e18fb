/** Everything outside podmon: the API server, the CSI driver and the node's file system. Every method answers
    anything at all; the ghost trace keeps what was asked and what was answered, in order. */
module World {
  import opened Kube

  /** A call whose only answer is an error. */
  datatype Call =
    | ControllerUnpublish(nodeID: string, volume: string)
    | TaintNode(node: string, key: string, effect: string, remove: bool)
    | DeleteAttachment(name: string)
    | DeletePod(podKey: string, uid: string, force: bool)
    | NodeUnpublish(path: string, volume: string)
    | NodeUnstage(path: string, volume: string)
    | Unmount(path: string)
    | Remove(path: string)
    | FinalCleanup(rawBlock: bool, volume: string, pv: string, podUID: string)

  /** Where the driver connection is asked for: before validating, and before fencing. */
  datatype Stage = AtValidation | AtFencing

  /** The driver's raw answer to ValidateVolumeHostConnectivity. */
  datatype Reply = Reply(connected: bool, iosInProgress: bool)

  datatype Event =
    | Did(call: Call, err: Failure)
    | Finished(call: Call, err: Failure) // a helper that may repeat a call returned err
    | PVsRead(podKey: string, pvs: Result<seq<PersistentVolume>>, soFar: nat) // soFar were read before any error
    | PVRead(pv: string, handle: Result<string>)
    | AttachmentsListed(items: Result<seq<VolumeAttachment>>)
    | AttachmentRead(pv: string, node: string, attachment: Result<Option<VolumeAttachment>>)
    | DriverConnected(stage: Stage, connected: bool)
    | Validated(node: string, nodeID: string, volumes: seq<string>, reply: Result<Reply>)
    | PodRead(podKey: string, pod: Option<Pod>)
    | NodeRead(node: string, answer: Option<Node>)
    | ReadyStored(podKey: string)    // a Ready pod was recorded
    | DeleteObserved(podKey: string, uid: string) // a Deleted watch event of this instance was handled
    | CleanupSpawned(target: Pod, on: Node, taintnoexec: bool, taintpodmon: bool)

  class World {
    ghost var trace: seq<Event>

    constructor ()
      ensures trace == []
    {
      trace := [];
    }

    /** Adds to the trace a fact that is not a call. */
    ghost method Note(e: Event)
      modifies this`trace
      ensures trace == old(trace) + [e]
    {
      trace := trace + [e];
    }

    method Do(call: Call) returns (err: Failure)
      modifies this`trace
      ensures trace == old(trace) + [Did(call, err)]
    {
      err := *;
      trace := trace + [Did(call, err)];
    }

    method ReadPVs(podKey: string) returns (pvs: Result<seq<PersistentVolume>>, soFar: nat)
      modifies this`trace
      ensures trace == old(trace) + [PVsRead(podKey, pvs, soFar)]
      ensures pvs.Ok? ==> soFar == |pvs.value|
    {
      pvs, soFar := *, *;
      if pvs.Ok? { soFar := |pvs.value|; }
      trace := trace + [PVsRead(podKey, pvs, soFar)];
    }

    /** The volume handle of one CSI volume. */
    method ReadPV(pv: string) returns (handle: Result<string>)
      modifies this`trace
      ensures trace == old(trace) + [PVRead(pv, handle)]
    {
      handle := *;
      trace := trace + [PVRead(pv, handle)];
    }

    method ListAttachments() returns (items: Result<seq<VolumeAttachment>>)
      modifies this`trace
      ensures trace == old(trace) + [AttachmentsListed(items)]
    {
      items := *;
      trace := trace + [AttachmentsListed(items)];
    }

    method ReadAttachment(pv: string, node: string) returns (attachment: Result<Option<VolumeAttachment>>)
      modifies this`trace
      ensures trace == old(trace) + [AttachmentRead(pv, node, attachment)]
    {
      attachment := *;
      trace := trace + [AttachmentRead(pv, node, attachment)];
    }

    method IsDriverConnected(ghost stage: Stage) returns (connected: bool)
      modifies this`trace
      ensures trace == old(trace) + [DriverConnected(stage, connected)]
    {
      connected := *;
      trace := trace + [DriverConnected(stage, connected)];
    }

    method Validate(node: string, nodeID: string, volumes: seq<string>) returns (reply: Result<Reply>)
      modifies this`trace
      ensures trace == old(trace) + [Validated(node, nodeID, volumes, reply)]
    {
      reply := *;
      trace := trace + [Validated(node, nodeID, volumes, reply)];
    }

    /** A pod that is read back is the one that was asked for. */
    method ReadPod(namespace: string, name: string) returns (pod: Option<Pod>)
      modifies this`trace
      ensures trace == old(trace) + [PodRead(PodKey(namespace, name), pod)]
      ensures pod.Some? ==> pod.value.namespace == namespace && pod.value.name == name
    {
      pod := *;
      if pod.Some? { pod := Some(pod.value.(namespace := namespace, name := name)); }
      trace := trace + [PodRead(PodKey(namespace, name), pod)];
    }

    method ReadNode(name: string) returns (node: Option<Node>)
      modifies this`trace
      ensures trace == old(trace) + [NodeRead(name, node)]
      ensures node.Some? ==> node.value.name == name
    {
      node := *;
      if node.Some? { node := Some(node.value.(name := name)); }
      trace := trace + [NodeRead(name, node)];
    }
  }

  function Join(parts: seq<seq<Event>>): seq<Event> {
    if parts == [] then [] else Join(parts[..|parts| - 1]) + parts[|parts| - 1]
  }

  lemma Regroup(a: seq<Event>, b: seq<Event>, c: seq<Event>)
    ensures a + b + c == a + (b + c)
  {
  }

  lemma JoinAdded(parts: seq<seq<Event>>, part: seq<Event>)
    ensures Join(parts + [part]) == Join(parts) + part
  {
    assert (parts + [part])[..|parts|] == parts;
  }

  lemma {:induction false} JoinHas(parts: seq<seq<Event>>, e: Event)
    ensures e in Join(parts) <==> exists i :: 0 <= i < |parts| && e in parts[i]
  {
    if parts != [] {
      var before := parts[..|parts| - 1];
      JoinHas(before, e);
      if e in Join(before) {
        var i :| 0 <= i < |before| && e in before[i];
        assert e in parts[i];
      } else if exists i :: 0 <= i < |parts| && e in parts[i] {
        var i :| 0 <= i < |parts| && e in parts[i];
        assert i < |before| ==> e in before[i];
      }
    }
  }

  predicate IsPending(err: Failure) {
    err.Some? && HasSuffix(err.value.message, "pending")
  }

  /** log is one use of a retrying helper: at most max attempts of the same call, repeated only after an error
      that ends in "pending" and for as long as there is one, the last answer being what the helper returns. */
  predicate RetryRun(call: Call, max: int, err: Failure, log: seq<Event>) {
    && log != []
    && log[|log| - 1] == Finished(call, err)
    && (max <= 0 ==> log == [Finished(call, None)])
    && (0 < max ==>
          && 2 <= |log| <= max + 1
          && log[|log| - 2] == Did(call, err)
          && (forall i :: 0 <= i < |log| - 1 ==> log[i].Did? && log[i].call == call)
          && (forall i :: 0 <= i < |log| - 2 ==> IsPending(log[i].err))
          && (IsPending(err) ==> |log| == max + 1))
  }

  /** So far: attempts of the same call, all of which ended in "pending". */
  predicate Retrying(call: Call, log: seq<Event>) {
    forall j :: 0 <= j < |log| ==> log[j].Did? && log[j].call == call && IsPending(log[j].err)
  }

  method CallWithRetries(world: World, call: Call, max: int) returns (err: Failure, ghost log: seq<Event>)
    modifies world`trace
    ensures world.trace == old(world.trace) + log
    ensures RetryRun(call, max, err, log)
  {
    err := None;
    ghost var t0 := world.trace;
    ghost var tries: seq<Event> := [];
    var i := 0;
    while i < max
      invariant (i == 0 || i <= max) && |tries| == i && world.trace == t0 + tries
      invariant Retrying(call, tries) && (if i == 0 then err == None else tries[i - 1] == Did(call, err))
    {
      err := world.Do(call);
      ghost var before := tries;
      tries := before + [Did(call, err)];
      if err == None || !HasSuffix(err.value.message, "pending") {
        log := tries + [Finished(call, err)];
        world.Note(Finished(call, err));
        RetryEnds(call, max, err, before);
        return;
      }
      i := i + 1;
    }
    log := tries + [Finished(call, err)];
    world.Note(Finished(call, err));
    if 0 < max { assert tries == tries[..max - 1] + [Did(call, err)]; }
  }

  lemma RetryEnds(call: Call, max: int, err: Failure, before: seq<Event>)
    requires Retrying(call, before) && |before| < max && !IsPending(err)
    ensures RetryRun(call, max, err, before + [Did(call, err)] + [Finished(call, err)])
  {
  }

  /** With attempts allowed, a helper that reports success made a call that succeeded. */
  lemma SuccessWasAnswered(call: Call, max: int, log: seq<Event>)
    requires 0 < max && RetryRun(call, max, None, log)
    ensures Did(call, None) in log
  {
    assert log[|log| - 2] == Did(call, None);
  }
}
