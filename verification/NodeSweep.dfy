/** The node's sweep over its tracked pods, which decides whether the taint may go. */
module NodeSweep {
  import opened Kube
  import opened World
  import opened NodeCleanup

  datatype NodeConfig = NodeConfig(driver: Driver, ignoreVolumeless: bool, maxRetries: int, podmonTaint: string,
                           nodeName: string, driverNamespace: string)

  datatype ContainerState = ContainerCreated | ContainerRunning | ContainerExited | ContainerUnknown

  type Tracked = map<string, NodePodInfo>

  class NodePodMonitor {
    const config: NodeConfig
    var podKeyMap: Tracked
    var apiConnected: bool

    constructor (config: NodeConfig)
      ensures this.config == config && podKeyMap == map[]
    {
      this.config := config;
      podKeyMap, apiConnected := map[], false;
    }
  }

  predicate Keyed(tracked: Tracked) {
    forall key :: key in tracked ==> IsPodKey(key)
  }

  // ---------------------------------------------------------------- judging one pod

  predicate Volumeless(info: NodePodInfo) { info.mounts == [] && info.devices == [] }

  /** The API server has the pod pending or running on this node. */
  predicate BelongsHere(pod: Option<Pod>, nodeIP: string) {
    pod.Some? && pod.value.hostIP == nodeIP && (pod.value.phase == Pending || pod.value.phase == Running)
  }

  predicate IsExecuting(containers: map<string, ContainerState>, containerID: string) {
    match SecondPart(containerID, "//")
    case Some(id) => id in containers && (containers[id] == ContainerRunning || containers[id] == ContainerCreated)
    case None => false
  }

  /** One of the pod's containers runs, or was created, according to the container runtime. */
  predicate Executing(info: NodePodInfo, containers: map<string, ContainerState>) {
    exists i :: 0 <= i < |info.pod.containers| && IsExecuting(containers, info.pod.containers[i].id)
  }

  /** The API server still has this very instance; a read that failed counts as gone. */
  predicate StillThere(info: NodePodInfo, pod: Option<Pod>) {
    pod.Some? && pod.value.uid == info.podUID
  }

  datatype Judgement = Ignored | Skipped | ToClean

  /** A tracked pod's turn in the sweep, and what reading it from the API server answered. */
  datatype Visit = Visit(key: string, info: NodePodInfo, answers: seq<Option<Pod>>, verdict: Judgement) {
    function Log(): seq<Event> {
      seq(|answers|, i requires 0 <= i < |answers| => PodRead(key, answers[i]))
    }
  }

  /** What the sweep meets: the container runtime's listing, and the node's address. */
  datatype Scene = Scene(listing: Result<map<string, ContainerState>>, nodeIP: string) {
    /** A listing that failed is only logged, and reads as no containers. */
    function Containers(): map<string, ContainerState> {
      match listing
      case Ok(containers) => containers
      case Err(_) => map[]
    }
  }

  predicate Judged(c: NodeConfig, scene: Scene, v: Visit) {
    if c.ignoreVolumeless && Volumeless(v.info) then v.answers == [] && v.verdict == Ignored
    else
      && v.answers != []
      && if BelongsHere(v.answers[0], scene.nodeIP) then |v.answers| == 1 && v.verdict == Ignored
         else if Executing(v.info, scene.Containers()) then |v.answers| == 1 && v.verdict == Skipped
         else |v.answers| == 2 && v.verdict == if StillThere(v.info, v.answers[1]) then Skipped else ToClean
  }

  method AnyExecuting(info: NodePodInfo, containers: map<string, ContainerState>) returns (executing: bool)
    ensures executing <==> Executing(info, containers)
  {
    for i := 0 to |info.pod.containers|
      invariant forall k :: 0 <= k < i ==> !IsExecuting(containers, info.pod.containers[k].id)
    {
      var cid := SecondPart(info.pod.containers[i].id, "//");
      if cid.Some? && cid.value in containers &&
         (containers[cid.value] == ContainerRunning || containers[cid.value] == ContainerCreated) {
        return true;
      }
    }
    executing := false;
  }

  method JudgePod(world: World, c: NodeConfig, scene: Scene, key: string, info: NodePodInfo)
    returns (verdict: Judgement, ghost v: Visit)
    requires IsPodKey(key)
    modifies world`trace
    ensures world.trace == old(world.trace) + v.Log()
    ensures v.key == key && v.info == info && v.verdict == verdict && Judged(c, scene, v)
  {
    v := Visit(key, info, [], Ignored);
    if c.ignoreVolumeless && info.mounts == [] && info.devices == [] {
      assert v.Log() == [];
      return Ignored, v;
    }
    KeySplits(key);
    var (namespace, name) := SplitPodKey(key);
    var pod := world.ReadPod(namespace, name);
    v := v.(answers := [pod]);
    assert v.Log() == [PodRead(key, pod)];
    if pod.Some? && pod.value.hostIP == scene.nodeIP && (pod.value.phase == Pending || pod.value.phase == Running) {
      return Ignored, v;
    }
    var executing := AnyExecuting(info, scene.Containers());
    if executing { return Skipped, v.(verdict := Skipped); }
    var again := world.ReadPod(namespace, name);
    v := v.(answers := [pod, again]);
    assert v.Log() == [PodRead(key, pod)] + [PodRead(key, again)];
    verdict := if again.Some? && again.value.uid == info.podUID then Skipped else ToClean;
    v := v.(verdict := verdict);
  }

  // ---------------------------------------------------------------- the sweep

  /** A pod that was cleaned, and what came of it. */
  datatype Cleaning = Cleaning(key: string, info: NodePodInfo, volumes: seq<VolumeLog>, err: Failure)

  datatype Sweep = Sweep(visits: seq<Visit>, cleanings: seq<Cleaning>, taint: seq<Event>) {
    function Log(): seq<Event> { VisitLogs(visits) + CleaningLogs(cleanings) + taint }
  }

  function VisitLogs(visits: seq<Visit>): seq<Event> {
    if visits == [] then [] else VisitLogs(visits[..|visits| - 1]) + visits[|visits| - 1].Log()
  }

  function CleaningLogs(cleanings: seq<Cleaning>): seq<Event> {
    if cleanings == [] then [] else CleaningLogs(cleanings[..|cleanings| - 1]) + LogsOf(cleanings[|cleanings| - 1].volumes)
  }

  /** Of the given pods, those that had no turn. */
  function Unvisited(keys: set<string>, visits: seq<Visit>): set<string> {
    if visits == [] then keys else Unvisited(keys, visits[..|visits| - 1]) - {visits[|visits| - 1].key}
  }

  /** The pods judged to be cleaned, in the order of the visits. */
  function ToBeCleaned(visits: seq<Visit>): seq<Visit> {
    if visits == [] then []
    else
      var before := ToBeCleaned(visits[..|visits| - 1]);
      if visits[|visits| - 1].verdict == ToClean then before + [visits[|visits| - 1]] else before
  }

  predicate NoneSkipped(visits: seq<Visit>) {
    visits == [] || (NoneSkipped(visits[..|visits| - 1]) && visits[|visits| - 1].verdict != Skipped)
  }

  predicate NoneFailed(cleanings: seq<Cleaning>) {
    cleanings == [] || (NoneFailed(cleanings[..|cleanings| - 1]) && cleanings[|cleanings| - 1].err == None)
  }

  /** What stays tracked: a pod is forgotten as soon as it was cleaned without an error. */
  function Kept(tracked: Tracked, cleanings: seq<Cleaning>): Tracked {
    if cleanings == [] then tracked
    else
      var kept, last := Kept(tracked, cleanings[..|cleanings| - 1]), cleanings[|cleanings| - 1];
      if last.err == None then kept - {last.key} else kept
  }

  /** A visit of a tracked pod as it is tracked, rightly judged. */
  ghost predicate FairVisit(c: NodeConfig, scene: Scene, tracked: Tracked, v: Visit) {
    v.key in tracked && tracked[v.key] == v.info && Judged(c, scene, v)
  }

  ghost predicate FairVisits(c: NodeConfig, scene: Scene, tracked: Tracked, visits: seq<Visit>) {
    visits == [] || (FairVisits(c, scene, tracked, visits[..|visits| - 1]) && FairVisit(c, scene, tracked, visits[|visits| - 1]))
  }

  /** The cleaning of a pod that was judged to be cleaned. */
  ghost predicate FairCleaning(c: NodeConfig, v: Visit, cl: Cleaning) {
    && cl.key == v.key && cl.info == v.info
    && CleansPod(c.driver, cl.info, c.maxRetries, cl.volumes)
    && cl.err == LastBad(c.driver, LogsOf(cl.volumes))
  }

  ghost predicate FairCleanings(c: NodeConfig, todo: seq<Visit>, cleanings: seq<Cleaning>) {
    cleanings == [] ||
    (var n := |cleanings| - 1; n < |todo| && FairCleanings(c, todo, cleanings[..n]) && FairCleaning(c, todo[n], cleanings[n]))
  }

  /** Every tracked pod is visited exactly once, exactly those judged so are cleaned, and the taint is lifted only
      when nothing was skipped and nothing failed. */
  ghost predicate SweepRun(c: NodeConfig, scene: Scene, node: string, tracked: Tracked, sw: Sweep) {
    && FairVisits(c, scene, tracked, sw.visits)
    && Unvisited(tracked.Keys, sw.visits) == {} && |sw.visits| == |tracked|
    && FairCleanings(c, ToBeCleaned(sw.visits), sw.cleanings) && |sw.cleanings| == |ToBeCleaned(sw.visits)|
    && if NoneSkipped(sw.visits) && NoneFailed(sw.cleanings)
       then |sw.taint| == 1 && sw.taint[0].Did? && sw.taint[0].call == TaintNode(node, c.podmonTaint, NO_SCHEDULE, true)
       else sw.taint == []
  }

  /** After the visits so far: the log, and the lists the sweep built. */
  ghost predicate Judging(c: NodeConfig, scene: Scene, tracked: Tracked, t0: seq<Event>, trace: seq<Event>, visits: seq<Visit>, lists: Lists) {
    && trace == t0 + VisitLogs(visits)
    && FairVisits(c, scene, tracked, visits)
    && Parallel(lists.podKeys, lists.podInfos, ToBeCleaned(visits))
    && (lists.skipped == [] <==> NoneSkipped(visits))
  }

  datatype Lists = Lists(podKeys: seq<string>, podInfos: seq<NodePodInfo>, skipped: seq<string>)

  lemma ListsFollow(c: NodeConfig, scene: Scene, tracked: Tracked, t0: seq<Event>, trace: seq<Event>, visits: seq<Visit>, lists: Lists, v: Visit)
    requires Judging(c, scene, tracked, t0, trace, visits, lists) && FairVisit(c, scene, tracked, v)
    ensures Judging(c, scene, tracked, t0, trace + v.Log(), visits + [v],
                    match v.verdict
                    case Ignored => lists
                    case Skipped => lists.(skipped := lists.skipped + [v.key])
                    case ToClean => lists.(podKeys := lists.podKeys + [v.key], podInfos := lists.podInfos + [v.info]))
  {
    assert (visits + [v])[..|visits|] == visits;
    Regroup(t0, VisitLogs(visits), v.Log());
    ParallelAdded(lists.podKeys, lists.podInfos, ToBeCleaned(visits), v);
  }

  /** Judges one more pod, after the visits before. */
  method JudgeNext(world: World, c: NodeConfig, scene: Scene, tracked: Tracked, key: string, lists0: Lists, ghost t0: seq<Event>,
                   ghost before: seq<Visit>)
    returns (lists: Lists, ghost visits: seq<Visit>)
    requires Keyed(tracked) && key in tracked && Judging(c, scene, tracked, t0, world.trace, before, lists0)
    modifies world`trace
    ensures Judging(c, scene, tracked, t0, world.trace, visits, lists)
    ensures |visits| == |before| + 1 && Unvisited(tracked.Keys, visits) == Unvisited(tracked.Keys, before) - {key}
  {
    var info := tracked[key];
    var verdict, v := JudgePod(world, c, scene, key, info);
    ListsFollow(c, scene, tracked, t0, old(world.trace), before, lists0, v);
    visits := before + [v];
    assert visits[..|before|] == before;
    match verdict {
      case Ignored => lists := lists0;
      case Skipped => lists := lists0.(skipped := lists0.skipped + [key]);
      case ToClean => lists := lists0.(podKeys := lists0.podKeys + [key], podInfos := lists0.podInfos + [info]);
    }
  }

  method JudgePods(pm: NodePodMonitor, world: World, scene: Scene)
    returns (podKeys: seq<string>, podInfos: seq<NodePodInfo>, skipped: seq<string>, ghost visits: seq<Visit>)
    requires Keyed(pm.podKeyMap)
    modifies world`trace
    ensures world.trace == old(world.trace) + VisitLogs(visits)
    ensures FairVisits(pm.config, scene, pm.podKeyMap, visits)
    ensures Unvisited(pm.podKeyMap.Keys, visits) == {} && |visits| == |pm.podKeyMap|
    ensures Parallel(podKeys, podInfos, ToBeCleaned(visits))
    ensures skipped == [] <==> NoneSkipped(visits)
  {
    var lists := Lists([], [], []);
    visits := [];
    ghost var t0 := world.trace;
    var tracked := pm.podKeyMap;
    var todo := tracked.Keys;
    while todo != {}
      invariant Judging(pm.config, scene, tracked, t0, world.trace, visits, lists)
      invariant todo <= tracked.Keys
      invariant todo == Unvisited(tracked.Keys, visits) && |visits| + |todo| == |tracked|
      decreases todo
    {
      var key :| key in todo;
      lists, visits := JudgeNext(world, pm.config, scene, tracked, key, lists, t0, visits);
      todo := todo - {key};
    }
    podKeys, podInfos, skipped := lists.podKeys, lists.podInfos, lists.skipped;
  }

  /** The two lists the sweep builds stay in step. */
  predicate Parallel(podKeys: seq<string>, podInfos: seq<NodePodInfo>, visits: seq<Visit>) {
    && |podKeys| == |podInfos| == |visits|
    && forall i :: 0 <= i < |visits| ==> podKeys[i] == visits[i].key && podInfos[i] == visits[i].info
  }

  lemma ParallelAdded(podKeys: seq<string>, podInfos: seq<NodePodInfo>, visits: seq<Visit>, v: Visit)
    requires Parallel(podKeys, podInfos, visits)
    ensures Parallel(podKeys + [v.key], podInfos + [v.info], visits + [v])
  {
  }

  method CleanJudgedPods(pm: NodePodMonitor, world: World, podKeys: seq<string>, podInfos: seq<NodePodInfo>, ghost todo: seq<Visit>)
    returns (withError: seq<string>, ghost cleanings: seq<Cleaning>)
    requires Parallel(podKeys, podInfos, todo)
    modifies pm`podKeyMap, world`trace
    ensures world.trace == old(world.trace) + CleaningLogs(cleanings)
    ensures FairCleanings(pm.config, todo, cleanings) && |cleanings| == |todo|
    ensures withError == [] <==> NoneFailed(cleanings)
    ensures pm.podKeyMap == Kept(old(pm.podKeyMap), cleanings)
  {
    withError, cleanings := [], [];
    ghost var t0, before := world.trace, pm.podKeyMap;
    for i := 0 to |podKeys|
      invariant |cleanings| == i && world.trace == t0 + CleaningLogs(cleanings)
      invariant FairCleanings(pm.config, todo, cleanings)
      invariant withError == [] <==> NoneFailed(cleanings)
      invariant pm.podKeyMap == Kept(before, cleanings)
    {
      var err, volumes := NodeModeCleanupPod(world, pm.config.driver, podInfos[i], pm.config.maxRetries);
      ghost var cl := Cleaning(podKeys[i], podInfos[i], volumes, err);
      CleaningLogged(t0, cleanings, cl);
      CleaningAdded(before, cleanings, cl);
      FairCleaningAdded(pm.config, todo, cleanings, cl);
      if err.Some? {
        withError := withError + [podKeys[i]];
      } else {
        pm.podKeyMap := pm.podKeyMap - {podKeys[i]};
      }
      cleanings := cleanings + [cl];
    }
  }

  lemma CleaningLogged(trace: seq<Event>, cleanings: seq<Cleaning>, cl: Cleaning)
    ensures trace + CleaningLogs(cleanings) + LogsOf(cl.volumes) == trace + CleaningLogs(cleanings + [cl])
  {
    assert (cleanings + [cl])[..|cleanings|] == cleanings;
    Regroup(trace, CleaningLogs(cleanings), LogsOf(cl.volumes));
  }

  lemma CleaningAdded(tracked: Tracked, cleanings: seq<Cleaning>, cl: Cleaning)
    ensures Kept(tracked, cleanings + [cl]) == if cl.err == None then Kept(tracked, cleanings) - {cl.key} else Kept(tracked, cleanings)
    ensures NoneFailed(cleanings + [cl]) <==> NoneFailed(cleanings) && cl.err == None
  {
    assert (cleanings + [cl])[..|cleanings|] == cleanings;
  }

  lemma FairCleaningAdded(c: NodeConfig, todo: seq<Visit>, cleanings: seq<Cleaning>, cl: Cleaning)
    requires FairCleanings(c, todo, cleanings) && |cleanings| < |todo| && FairCleaning(c, todo[|cleanings|], cl)
    ensures FairCleanings(c, todo, cleanings + [cl])
  {
    assert (cleanings + [cl])[..|cleanings|] == cleanings;
  }

  /** One sweep over all tracked pods; the taint goes only if no pod was skipped and every clean-up went well. */
  method NodeModeCleanupPods(pm: NodePodMonitor, world: World, scene: Scene, node: string) returns (untainted: bool, ghost sw: Sweep)
    requires Keyed(pm.podKeyMap)
    modifies pm`podKeyMap, world`trace
    ensures world.trace == old(world.trace) + sw.Log()
    ensures SweepRun(pm.config, scene, node, old(pm.podKeyMap), sw)
    ensures untainted <==> sw.taint == [Did(TaintNode(node, pm.config.podmonTaint, NO_SCHEDULE, true), None)]
    ensures pm.podKeyMap == Kept(old(pm.podKeyMap), sw.cleanings)
  {
    ghost var t0 := world.trace;
    var podKeys, podInfos, skipped, visits := JudgePods(pm, world, scene);
    var withError, cleanings := CleanJudgedPods(pm, world, podKeys, podInfos, ToBeCleaned(visits));
    sw := Sweep(visits, cleanings, []);
    untainted := false;
    if skipped == [] && withError == [] {
      var err := world.Do(TaintNode(node, pm.config.podmonTaint, NO_SCHEDULE, true));
      sw := sw.(taint := [Did(TaintNode(node, pm.config.podmonTaint, NO_SCHEDULE, true), err)]);
      untainted := err == None;
    }
    assert world.trace == t0 + sw.Log() by {
      Regroup(t0, VisitLogs(visits), CleaningLogs(cleanings));
      Regroup(t0, VisitLogs(visits) + CleaningLogs(cleanings), sw.taint);
      assert sw.Log() == VisitLogs(visits) + CleaningLogs(cleanings) + sw.taint;
    }
  }
}
