/** What a sweep guarantees when it lifts the taint, and what it does to the tracked pods in any case. */
module NodeSafety {
  import opened Kube
  import opened World
  import opened NodeCleanup
  import opened NodeSweep
  import opened Promises

  // ---------------------------------------------------------------- lists built one visit at a time

  lemma {:induction false} FairVisitAt(c: NodeConfig, scene: Scene, tracked: Tracked, visits: seq<Visit>, i: nat)
    requires FairVisits(c, scene, tracked, visits) && i < |visits|
    ensures FairVisit(c, scene, tracked, visits[i])
  {
    if i < |visits| - 1 { FairVisitAt(c, scene, tracked, visits[..|visits| - 1], i); }
  }

  lemma {:induction false} FairCleaningAt(c: NodeConfig, todo: seq<Visit>, cleanings: seq<Cleaning>, i: nat)
    requires FairCleanings(c, todo, cleanings) && i < |cleanings|
    ensures |cleanings| <= |todo| && FairCleaning(c, todo[i], cleanings[i])
  {
    if i < |cleanings| - 1 { FairCleaningAt(c, todo, cleanings[..|cleanings| - 1], i); }
  }

  lemma {:induction false} NoneSkippedMeaning(visits: seq<Visit>)
    ensures NoneSkipped(visits) <==> forall i :: 0 <= i < |visits| ==> visits[i].verdict != Skipped
  {
    if visits != [] { NoneSkippedMeaning(visits[..|visits| - 1]); }
  }

  lemma {:induction false} NoneFailedMeaning(cleanings: seq<Cleaning>)
    ensures NoneFailed(cleanings) <==> forall i :: 0 <= i < |cleanings| ==> cleanings[i].err == None
  {
    if cleanings != [] { NoneFailedMeaning(cleanings[..|cleanings| - 1]); }
  }

  ghost predicate VisitOf(visits: seq<Visit>, key: string, i: nat) {
    i < |visits| && visits[i].key == key
  }

  lemma {:induction false} UnvisitedMeaning(keys: set<string>, visits: seq<Visit>, key: string)
    ensures key in Unvisited(keys, visits) <==> key in keys && forall i: nat :: !VisitOf(visits, key, i)
    ensures |Unvisited(keys, visits)| + |visits| >= |keys|
  {
    if visits != [] {
      var before, last := visits[..|visits| - 1], visits[|visits| - 1];
      UnvisitedMeaning(keys, before, key);
      assert forall i: nat :: i < |before| ==> (VisitOf(visits, key, i) <==> VisitOf(before, key, i));
      if key in Unvisited(keys, before) && key != last.key {
        forall i: nat ensures !VisitOf(visits, key, i) {
          assert !VisitOf(before, key, i);
        }
      }
      if key == last.key { assert VisitOf(visits, key, |visits| - 1); }
      if i: nat :| VisitOf(before, key, i) { assert VisitOf(visits, key, i); }
      assert last.key in Unvisited(keys, before) ==> |Unvisited(keys, before) - {last.key}| == |Unvisited(keys, before)| - 1;
      assert last.key !in Unvisited(keys, before) ==> Unvisited(keys, before) - {last.key} == Unvisited(keys, before);
    }
  }

  /** Visiting n pods in n visits visits none twice. */
  lemma {:induction false} VisitedOnce(keys: set<string>, visits: seq<Visit>)
    requires |Unvisited(keys, visits)| + |visits| == |keys|
    ensures forall i, j :: 0 <= i < j < |visits| ==> visits[i].key != visits[j].key
  {
    if visits != [] {
      var before, last := visits[..|visits| - 1], visits[|visits| - 1];
      UnvisitedMeaning(keys, before, last.key);
      var u := Unvisited(keys, before);
      assert last.key !in u ==> u - {last.key} == u;
      assert last.key in u ==> |u - {last.key}| == |u| - 1;
      VisitedOnce(keys, before);
      forall i | 0 <= i < |before| ensures visits[i].key != last.key { assert !VisitOf(before, last.key, i); }
    }
  }

  lemma {:induction false} ToBeCleanedMeaning(visits: seq<Visit>, v: Visit)
    ensures v in ToBeCleaned(visits) <==> v in visits && v.verdict == ToClean
  {
    if visits != [] {
      var before, last := visits[..|visits| - 1], visits[|visits| - 1];
      assert visits == before + [last];
      ToBeCleanedMeaning(before, v);
    }
  }

  ghost predicate CleanedAs(cleanings: seq<Cleaning>, key: string, i: nat) {
    i < |cleanings| && cleanings[i].key == key && cleanings[i].err == None
  }

  lemma {:induction false} KeptMeaning(tracked: Tracked, cleanings: seq<Cleaning>, key: string)
    ensures key in Kept(tracked, cleanings) <==> key in tracked && forall i: nat :: !CleanedAs(cleanings, key, i)
    ensures key in Kept(tracked, cleanings) ==> Kept(tracked, cleanings)[key] == tracked[key]
  {
    if cleanings != [] {
      var before, last := cleanings[..|cleanings| - 1], cleanings[|cleanings| - 1];
      KeptMeaning(tracked, before, key);
      assert forall i: nat :: i < |before| ==> (CleanedAs(cleanings, key, i) <==> CleanedAs(before, key, i));
      if key in Kept(tracked, cleanings) {
        forall i: nat ensures !CleanedAs(cleanings, key, i) { assert !CleanedAs(before, key, i); }
      } else if key in tracked {
        if i: nat :| CleanedAs(before, key, i) { assert CleanedAs(cleanings, key, i); }
        if forall i: nat :: !CleanedAs(before, key, i) { assert CleanedAs(cleanings, key, |cleanings| - 1); }
      }
    }
  }

  // ---------------------------------------------------------------- the sweep

  /** Every tracked pod gets one verdict, as it is tracked: no pod is visited twice, and none is left out. */
  lemma EachPodIsJudgedOnce(c: NodeConfig, scene: Scene, node: string, tracked: Tracked, sw: Sweep, key: string)
    requires SweepRun(c, scene, node, tracked, sw)
    ensures key in tracked <==> exists i: nat :: VisitOf(sw.visits, key, i)
    ensures forall i: nat, j: nat :: VisitOf(sw.visits, key, i) && VisitOf(sw.visits, key, j) ==> i == j
    ensures forall i: nat :: VisitOf(sw.visits, key, i) ==> FairVisit(c, scene, tracked, sw.visits[i])
  {
    UnvisitedMeaning(tracked.Keys, sw.visits, key);
    VisitedOnce(tracked.Keys, sw.visits);
    forall i: nat | VisitOf(sw.visits, key, i) ensures FairVisit(c, scene, tracked, sw.visits[i]) {
      FairVisitAt(c, scene, tracked, sw.visits, i);
    }
  }

  /** The pods that are cleaned are those judged to be, and each is cleaned as it is tracked. */
  lemma CleanedPodsWereJudged(c: NodeConfig, scene: Scene, node: string, tracked: Tracked, sw: Sweep, j: nat)
    requires SweepRun(c, scene, node, tracked, sw) && j < |sw.cleanings|
    ensures exists i: nat :: VisitOf(sw.visits, sw.cleanings[j].key, i) && sw.visits[i].verdict == ToClean &&
                             FairVisit(c, scene, tracked, sw.visits[i]) && FairCleaning(c, sw.visits[i], sw.cleanings[j])
  {
    var todo := ToBeCleaned(sw.visits);
    FairCleaningAt(c, todo, sw.cleanings, j);
    ToBeCleanedMeaning(sw.visits, todo[j]);
    var i: nat :| i < |sw.visits| && sw.visits[i] == todo[j];
    FairVisitAt(c, scene, tracked, sw.visits, i);
    assert VisitOf(sw.visits, sw.cleanings[j].key, i);
  }

  lemma JudgedPodsAreCleaned(c: NodeConfig, scene: Scene, node: string, tracked: Tracked, sw: Sweep, i: nat)
    requires SweepRun(c, scene, node, tracked, sw) && i < |sw.visits| && sw.visits[i].verdict == ToClean
    ensures exists j: nat :: j < |sw.cleanings| && FairCleaning(c, sw.visits[i], sw.cleanings[j])
  {
    ToBeCleanedMeaning(sw.visits, sw.visits[i]);
    var j: nat :| j < |ToBeCleaned(sw.visits)| && ToBeCleaned(sw.visits)[j] == sw.visits[i];
    FairCleaningAt(c, ToBeCleaned(sw.visits), sw.cleanings, j);
  }

  /** A pod stops being tracked exactly when the sweep cleaned it without an error; whether the taint goes afterwards
      makes no difference. What stays, stays as it is. */
  lemma OnlyCleanedPodsAreForgotten(c: NodeConfig, scene: Scene, node: string, tracked: Tracked, sw: Sweep, key: string)
    requires SweepRun(c, scene, node, tracked, sw)
    ensures key in Kept(tracked, sw.cleanings) <==> key in tracked && forall i: nat :: !CleanedAs(sw.cleanings, key, i)
    ensures key in Kept(tracked, sw.cleanings) ==> Kept(tracked, sw.cleanings)[key] == tracked[key]
    ensures forall i: nat :: CleanedAs(sw.cleanings, key, i) ==> key in tracked && sw.cleanings[i].info == tracked[key]
  {
    KeptMeaning(tracked, sw.cleanings, key);
    forall i: nat | CleanedAs(sw.cleanings, key, i) ensures key in tracked && sw.cleanings[i].info == tracked[key] {
      CleanedPodsWereJudged(c, scene, node, tracked, sw, i);
    }
  }

  /** Why the sweep may leave a pod alone without that keeping the taint. */
  predicate MayBeIgnored(c: NodeConfig, scene: Scene, v: Visit) {
    || (c.ignoreVolumeless && v.info.mounts == v.info.devices == [])
    || (v.answers != [] && v.answers[0].Some? && v.answers[0].value.hostIP == scene.nodeIP &&
        v.answers[0].value.phase in {Pending, Running})
  }

  /** The runtime lists one of the pod's containers as running or as created. */
  ghost predicate Runs(info: NodePodInfo, scene: Scene) {
    exists k, id :: 0 <= k < |info.pod.containers| && RunsAs(info.pod.containers[k].id, id, scene)
  }

  ghost predicate RunsAs(containerID: string, id: string, scene: Scene) {
    && scene.listing.Ok? && id in scene.listing.value && scene.listing.value[id] in {ContainerRunning, ContainerCreated}
    && exists runtime, tail :: IsContainerID(containerID, runtime, id, tail)
  }

  lemma RunsAsIff(containerID: string, scene: Scene)
    ensures IsExecuting(scene.Containers(), containerID) <==> exists id :: RunsAs(containerID, id, scene)
  {
    if IsExecuting(scene.Containers(), containerID) {
      SecondPartIff(containerID, SecondPart(containerID, "//").value);
      assert RunsAs(containerID, SecondPart(containerID, "//").value, scene);
    }
    if id :| RunsAs(containerID, id, scene) { SecondPartIff(containerID, id); }
  }

  lemma RunsIff(info: NodePodInfo, scene: Scene)
    ensures Runs(info, scene) <==> Executing(info, scene.Containers())
  {
    if k, id :| 0 <= k < |info.pod.containers| && RunsAs(info.pod.containers[k].id, id, scene) {
      RunsAsIff(info.pod.containers[k].id, scene);
    }
    if k :| 0 <= k < |info.pod.containers| && IsExecuting(scene.Containers(), info.pod.containers[k].id) {
      RunsAsIff(info.pod.containers[k].id, scene);
    }
  }

  /** The read found the very instance that is tracked. */
  predicate IsSame(info: NodePodInfo, answer: Option<Pod>) { answer.Some? && answer.value.uid == info.podUID }

  /** A pod of which no container runs and which is no longer present, and all of whose volumes are clean. */
  ghost predicate CleanedUp(c: NodeConfig, scene: Scene, v: Visit, cl: Cleaning) {
    && !Runs(v.info, scene)
    && |v.answers| == 2 && !IsSame(v.info, v.answers[1])
    && cl.key == v.key && cl.info == v.info && cl.err == None
    && PodIsClean(c.driver, v.info, cl.volumes)
  }

  predicate Untainted(c: NodeConfig, node: string, sw: Sweep) {
    sw.taint == [Did(TaintNode(node, c.podmonTaint, "NoSchedule", true), None)]
  }

  /** If the taint is lifted, every tracked pod either may be ignored or was cleaned up and is no longer tracked. */
  lemma UntaintIsSafe(c: NodeConfig, scene: Scene, node: string, tracked: Tracked, sw: Sweep, key: string)
    requires SweepRun(c, scene, node, tracked, sw) && Untainted(c, node, sw) && key in tracked
    ensures exists i: nat :: VisitOf(sw.visits, key, i) && sw.visits[i].info == tracked[key] &&
              (MayBeIgnored(c, scene, sw.visits[i]) ||
               (key !in Kept(tracked, sw.cleanings) &&
                exists j: nat :: j < |sw.cleanings| && CleanedUp(c, scene, sw.visits[i], sw.cleanings[j])))
  {
    EachPodIsJudgedOnce(c, scene, node, tracked, sw, key);
    var i: nat :| VisitOf(sw.visits, key, i);
    var v := sw.visits[i];
    assert FairVisit(c, scene, tracked, v);
    NoneSkippedMeaning(sw.visits);
    if v.verdict == ToClean {
      JudgedPodsAreCleaned(c, scene, node, tracked, sw, i);
      var j: nat :| j < |sw.cleanings| && FairCleaning(c, v, sw.cleanings[j]);
      NoneFailedMeaning(sw.cleanings);
      PodIsCleanIffNothingBad(c.driver, v.info, c.maxRetries, sw.cleanings[j].volumes);
      assert CleanedAs(sw.cleanings, key, j);
      OnlyCleanedPodsAreForgotten(c, scene, node, tracked, sw, key);
      RunsIff(v.info, scene);
      assert CleanedUp(c, scene, v, sw.cleanings[j]);
    }
  }

  /** A pod that blocks the taint's removal without being cleaned. */
  ghost predicate Blocks(c: NodeConfig, scene: Scene, v: Visit) {
    && !MayBeIgnored(c, scene, v)
    && (Runs(v.info, scene) || (|v.answers| == 2 && IsSame(v.info, v.answers[1])))
  }

  /** The API server is asked to lift the taint exactly when no pod blocks and no cleaning failed; the sweep reports
      success exactly when, besides, that request is granted. */
  lemma UntaintIff(c: NodeConfig, scene: Scene, node: string, tracked: Tracked, sw: Sweep)
    requires SweepRun(c, scene, node, tracked, sw)
    ensures sw.taint != [] <==>
              (forall i :: 0 <= i < |sw.visits| ==> !Blocks(c, scene, sw.visits[i])) &&
              (forall j :: 0 <= j < |sw.cleanings| ==> sw.cleanings[j].err == None)
    ensures Untainted(c, node, sw) <==> sw.taint != [] && sw.taint[0].err == None
  {
    NoneSkippedMeaning(sw.visits);
    NoneFailedMeaning(sw.cleanings);
    forall i | 0 <= i < |sw.visits| ensures Blocks(c, scene, sw.visits[i]) <==> sw.visits[i].verdict == Skipped {
      SkippedIff(c, scene, node, tracked, sw, i);
    }
  }

  /** A pod is skipped exactly when it blocks: it may not be ignored, and one of its containers runs, or was created, or
      the API server still has the instance. */
  lemma SkippedIff(c: NodeConfig, scene: Scene, node: string, tracked: Tracked, sw: Sweep, i: nat)
    requires SweepRun(c, scene, node, tracked, sw) && i < |sw.visits|
    ensures sw.visits[i].verdict == Skipped <==> Blocks(c, scene, sw.visits[i])
    ensures Blocks(c, scene, sw.visits[i]) ==> sw.taint == [] && forall j :: 0 <= j < |sw.cleanings| ==> sw.cleanings[j].key != sw.visits[i].key
  {
    FairVisitAt(c, scene, tracked, sw.visits, i);
    RunsIff(sw.visits[i].info, scene);
    if Blocks(c, scene, sw.visits[i]) {
      NoneSkippedMeaning(sw.visits);
      forall j | 0 <= j < |sw.cleanings| ensures sw.cleanings[j].key != sw.visits[i].key {
        CleanedPodsWereJudged(c, scene, node, tracked, sw, j);
        EachPodIsJudgedOnce(c, scene, node, tracked, sw, sw.visits[i].key);
        assert VisitOf(sw.visits, sw.visits[i].key, i);
      }
    }
  }

  /** A failed read counts as gone: a pod that neither may be ignored nor executes is cleaned when its second read
      fails, whatever the API server holds. */
  lemma AFailedReadCountsAsGone(c: NodeConfig, scene: Scene, node: string, tracked: Tracked, sw: Sweep, i: nat)
    requires SweepRun(c, scene, node, tracked, sw) && i < |sw.visits|
    requires !MayBeIgnored(c, scene, sw.visits[i]) && !Runs(sw.visits[i].info, scene)
    ensures |sw.visits[i].answers| == 2
    ensures sw.visits[i].answers[1] == None ==>
              exists j: nat :: j < |sw.cleanings| && FairCleaning(c, sw.visits[i], sw.cleanings[j])
  {
    FairVisitAt(c, scene, tracked, sw.visits, i);
    RunsIff(sw.visits[i].info, scene);
    if sw.visits[i].answers[1] == None { JudgedPodsAreCleaned(c, scene, node, tracked, sw, i); }
  }

  /** When the runtime's listing fails, no container keeps the taint: exactly the pods that may not be ignored and that
      the API server still has do. */
  lemma AFailedListingBlocksNothing(c: NodeConfig, scene: Scene, node: string, tracked: Tracked, sw: Sweep, i: nat)
    requires SweepRun(c, scene, node, tracked, sw) && i < |sw.visits| && scene.listing.Err?
    ensures sw.visits[i].verdict == Skipped <==> |sw.visits[i].answers| == 2 && IsSame(sw.visits[i].info, sw.visits[i].answers[1])
  {
    FairVisitAt(c, scene, tracked, sw.visits, i);
    NoneIsExecuting(c, scene, sw.visits[i]);
  }

  lemma NoneIsExecuting(c: NodeConfig, scene: Scene, v: Visit)
    requires Judged(c, scene, v) && scene.listing.Err?
    ensures v.verdict == Skipped <==> |v.answers| == 2 && IsSame(v.info, v.answers[1])
    ensures !MayBeIgnored(c, scene, v) ==> |v.answers| == 2 && (IsSame(v.info, v.answers[1]) || v.verdict == ToClean)
  {
    assert scene.Containers() == map[];
  }

  /** And then every other pod that may not be ignored is cleaned, whatever containers of it are running. */
  lemma AFailedListingCleansRunningPods(c: NodeConfig, scene: Scene, node: string, tracked: Tracked, sw: Sweep, i: nat)
    requires SweepRun(c, scene, node, tracked, sw) && i < |sw.visits| && scene.listing.Err?
    requires !MayBeIgnored(c, scene, sw.visits[i])
    ensures |sw.visits[i].answers| == 2
    ensures !IsSame(sw.visits[i].info, sw.visits[i].answers[1]) ==>
              exists j: nat :: j < |sw.cleanings| && FairCleaning(c, sw.visits[i], sw.cleanings[j])
  {
    FairVisitAt(c, scene, tracked, sw.visits, i);
    NoneIsExecuting(c, scene, sw.visits[i]);
    if sw.visits[i].verdict == ToClean { JudgedPodsAreCleaned(c, scene, node, tracked, sw, i); }
  }
}
