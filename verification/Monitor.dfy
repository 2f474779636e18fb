/** The controller's tracking data, the node UID table and the connectivity question it asks the driver. */
module Monitor {
  import opened Kube
  import opened World
  import opened Promises

  datatype Config = Config(ignoreVolumeless: bool, extensionsPresent: bool, skipValidation: bool, maxRetries: int,
                           lossThreshold: int, podmonTaint: string, driverPodTaint: string)

  datatype PodInfo = PodInfo(podKey: string, node: Node, podUID: string, arrayIDs: seq<string>,
                             affinity: map<string, string>)

  datatype WatchType = Added | Modified | Deleted | Other

  class PodMonitor {
    const config: Config
    var infos: map<string, PodInfo>   // PodKeyToControllerPodInfo
    var crashCounts: map<string, nat> // PodKeyToCrashLoopBackOffCount
    var nodeUIDs: map<string, string> // NodeNameToUID

    constructor (config: Config)
      ensures this.config == config && infos == map[] && crashCounts == map[] && nodeUIDs == map[]
    {
      this.config := config;
      infos, crashCounts, nodeUIDs := map[], map[], map[];
    }

    /** Every record sits under its own pod key. */
    ghost predicate Keyed()
      reads this`infos
    {
      KeyedInfos(infos)
    }

    function GetNodeUID(name: string): string
      reads this`nodeUIDs
    {
      UidOf(nodeUIDs, name)
    }

    method StoreNodeUID(name: string, uid: string)
      modifies this`nodeUIDs
      ensures nodeUIDs == Recorded(old(nodeUIDs), NodeEvent(Modified, name, uid))
    {
      nodeUIDs := nodeUIDs[name := uid];
    }

    /** Compare-and-swap to "". */
    method ClearNodeUID(name: string, oldUID: string) returns (swapped: bool)
      modifies this`nodeUIDs
      ensures nodeUIDs == Recorded(old(nodeUIDs), NodeEvent(Deleted, name, oldUID))
      ensures swapped <==> name in old(nodeUIDs) && old(nodeUIDs)[name] == oldUID
    {
      swapped := name in nodeUIDs && nodeUIDs[name] == oldUID;
      if swapped { nodeUIDs := nodeUIDs[name := ""]; }
    }
  }

  predicate KeyedInfos(infos: map<string, PodInfo>) {
    forall key :: key in infos ==> infos[key].podKey == key && IsPodKey(key)
  }

  // ---------------------------------------------------------------- node UID table

  datatype NodeEvent = NodeEvent(kind: WatchType, name: string, uid: string)

  function UidOf(table: map<string, string>, name: string): string {
    if name in table then table[name] else ""
  }

  function Recorded(table: map<string, string>, e: NodeEvent): map<string, string> {
    match e.kind
    case Added => table[e.name := e.uid]
    case Modified => table[e.name := e.uid]
    case Deleted => if e.name in table && table[e.name] == e.uid then table[e.name := ""] else table
    case Other => table
  }

  /** The table after a history of node events, oldest first. */
  function TableAfter(events: seq<NodeEvent>): map<string, string> {
    if events == [] then map[]
    else Recorded(TableAfter(events[..|events| - 1]), events[|events| - 1])
  }

  predicate Stores(e: NodeEvent, name: string) {
    e.name == name && (e.kind == Added || e.kind == Modified)
  }

  /** Event i is the last one that announced the node. */
  ghost predicate LastAnnounced(events: seq<NodeEvent>, name: string, i: nat) {
    && i < |events|
    && Stores(events[i], name)
    && forall j :: i < j < |events| ==> !Stores(events[j], name)
  }

  /** After event i, the same incarnation was reported deleted. */
  ghost predicate DeletedSince(events: seq<NodeEvent>, i: nat) {
    i < |events| && exists j :: i < j < |events| && events[j] == NodeEvent(Deleted, events[i].name, events[i].uid)
  }

  /** The stored UID is the last announced one, unless that very incarnation was deleted afterwards. In particular
      a late Deleted event of an older incarnation changes nothing. */
  lemma TableFollowsHistory(events: seq<NodeEvent>, name: string)
    ensures (forall j :: 0 <= j < |events| ==> !Stores(events[j], name)) ==> UidOf(TableAfter(events), name) == ""
    ensures forall i: nat :: LastAnnounced(events, name, i) ==>
              UidOf(TableAfter(events), name) == if DeletedSince(events, i) then "" else events[i].uid
  {
    if forall j :: 0 <= j < |events| ==> !Stores(events[j], name) { NeverAnnounced(events, name); }
    forall i: nat | LastAnnounced(events, name, i)
      ensures UidOf(TableAfter(events), name) == if DeletedSince(events, i) then "" else events[i].uid
    {
      AnnouncedLast(events, name, i);
    }
  }

  lemma {:induction false} NeverAnnounced(events: seq<NodeEvent>, name: string)
    requires forall j :: 0 <= j < |events| ==> !Stores(events[j], name)
    ensures UidOf(TableAfter(events), name) == ""
  {
    if events != [] { NeverAnnounced(events[..|events| - 1], name); }
  }

  lemma {:induction false} AnnouncedLast(events: seq<NodeEvent>, name: string, i: nat)
    requires LastAnnounced(events, name, i)
    ensures UidOf(TableAfter(events), name) == if DeletedSince(events, i) then "" else events[i].uid
  {
    var before, e := events[..|events| - 1], events[|events| - 1];
    assert events == before + [e];
    if i < |before| {
      LastBefore(before, e, name, i);
      AnnouncedLast(before, name, i);
    }
    OneMoreEvent(before, e, name, i);
  }

  lemma OneMoreEvent(before: seq<NodeEvent>, e: NodeEvent, name: string, i: nat)
    requires LastAnnounced(before + [e], name, i)
    requires LastAnnounced(before, name, i) ==> UidOf(TableAfter(before), name) == if DeletedSince(before, i) then "" else before[i].uid
    ensures UidOf(TableAfter(before + [e]), name) == if DeletedSince(before + [e], i) then "" else (before + [e])[i].uid
  {
    var events := before + [e];
    assert events[..|before|] == before;
    if i < |before| {
      LastBefore(before, e, name, i);
      DeletedOn(before, e, i);
    } else {
      assert !DeletedSince(events, i);
    }
  }

  lemma LastBefore(before: seq<NodeEvent>, e: NodeEvent, name: string, i: nat)
    requires LastAnnounced(before + [e], name, i) && i < |before|
    ensures LastAnnounced(before, name, i) && !Stores(e, name)
  {
    var events := before + [e];
    assert events[i] == before[i] && events[|before|] == e;
    forall j | i < j < |before| ensures !Stores(before[j], name) { assert before[j] == events[j]; }
  }

  lemma DeletedOn(before: seq<NodeEvent>, e: NodeEvent, i: nat)
    requires i < |before|
    ensures DeletedSince(before + [e], i) <==> DeletedSince(before, i) || e == NodeEvent(Deleted, before[i].name, before[i].uid)
  {
    var events := before + [e];
    if DeletedSince(before, i) {
      var j :| i < j < |before| && before[j] == NodeEvent(Deleted, before[i].name, before[i].uid);
      assert events[j] == before[j];
    }
    assert events[|before|] == e && events[i] == before[i];
  }

  method NodeMonitorHandler(cm: PodMonitor, world: World, kind: WatchType, node: Node) returns (ghost log: seq<Event>)
    modifies cm`nodeUIDs, world`trace
    ensures cm.nodeUIDs == Recorded(old(cm.nodeUIDs), NodeEvent(kind, node.name, node.uid))
    ensures world.trace == old(world.trace) + log && forall e :: e in log ==> e.Validated?
  {
    match kind {
      case Added => cm.StoreNodeUID(node.name, node.uid);
      case Modified => cm.StoreNodeUID(node.name, node.uid);
      case Deleted => var _ := cm.ClearNodeUID(node.name, node.uid);
      case Other =>
    }
    var _, validation := CallValidate(world, node, []);
    log := validation;
  }

  method NodeHasTaint(node: Node, key: string, effect: string) returns (found: bool)
    ensures found <==> HasTaint(node.taints, key, effect)
  {
    for i := 0 to |node.taints|
      invariant forall k :: 0 <= k < i ==> node.taints[k].key != key || node.taints[k].effect != effect
    {
      if node.taints[i].key == key && node.taints[i].effect == effect { return true; }
    }
    found := false;
  }

  // ---------------------------------------------------------------- asking the driver

  datatype Verdict = Verdict(connected: bool, iosInProgress: bool, err: Failure)

  const NO_CORRESPONDING_SDC := "there is no corresponding SDC"
  const NO_NODE_ID := "callValidateVolumeHostConnectivity: Could not determine CSI NodeID for node: "

  /** An array that does not know the host counts as a disconnected host; any other error as connected and busy. */
  function Interpret(reply: Result<Reply>): Verdict {
    match reply
    case Ok(r) => Verdict(r.connected, r.iosInProgress, None)
    case Err(e) =>
      if Contains(e.message, NO_CORRESPONDING_SDC) then Verdict(false, false, None) else Verdict(true, true, Some(e))
  }

  method CallValidate(world: World, node: Node, volumes: seq<string>) returns (v: Verdict, ghost log: seq<Event>)
    modifies world`trace
    ensures world.trace == old(world.trace) + log
    ensures node.csiNodeID == "" ==> log == [] && v == Verdict(false, false, Some(Error(NO_NODE_ID + node.name, false)))
    ensures node.csiNodeID != "" ==>
              && |log| == 1 && log[0].Validated?
              && log == [Validated(node.name, node.csiNodeID, volumes, log[0].reply)]
              && v == Interpret(log[0].reply)
              && (v.connected <==> SaysConnected(log[0].reply) || SaysNothing(log[0].reply))
              && (log[0].reply.Ok? ==> v.iosInProgress == log[0].reply.value.iosInProgress && v.err == None)
              && (log[0].reply.Err? ==>
                    && (v.iosInProgress <==> SaysNothing(log[0].reply))
                    && v.err == if SaysNothing(log[0].reply) then Some(log[0].reply.error) else None)
  {
    log := [];
    if node.csiNodeID == "" {
      return Verdict(false, false, Some(Error(NO_NODE_ID + node.name, false))), log;
    }
    var reply := world.Validate(node.name, node.csiNodeID, volumes);
    log := [Validated(node.name, node.csiNodeID, volumes, reply)];
    match reply {
      case Ok(answer) => v := Verdict(answer.connected, answer.iosInProgress, None);
      case Err(e) =>
        v := if Contains(e.message, NO_CORRESPONDING_SDC) then Verdict(false, false, None) else Verdict(true, true, Some(e));
    }
  }
}
