/** What lifting the taint says about the volumes that were ever recorded. */
module NodeVolumes {
  import opened Kube
  import opened World
  import Monitor
  import opened NodeCleanup
  import opened NodeSweep
  import opened NodeSafety
  import opened NodeWatch

  /** Step m is a sweep that cleaned the pod while the volume was recorded. */
  ghost predicate CleanedAt(c: NodeConfig, steps: seq<Step>, tables: seq<Tracked>, m: nat, key: string, v: Volume) {
    && m < |steps| && m < |tables| && steps[m].Swept? && Records(tables[m], key, v)
    && CleanedBy(c, steps[m].scene, steps[m].sweep, tables[m][key], key)
  }

  /** Step m is a watch event that overlooked the recorded volume. */
  ghost predicate OverlookedAt(c: NodeConfig, steps: seq<Step>, tables: seq<Tracked>, m: nat, key: string, v: Volume) {
    && m < |steps| && m < |tables| && steps[m].Watched? && Records(tables[m], key, v)
    && steps[m].watch.Answered() && Overlooks(c, tables[m], steps[m].watch, key, v)
  }

  /** The sweep may ignore the pod. */
  ghost predicate IgnoredAt(c: NodeConfig, step: Step, key: string) {
    step.Swept? && exists k: nat :: VisitOf(step.sweep.visits, key, k) && MayBeIgnored(c, step.scene, step.sweep.visits[k])
  }

  ghost predicate Lifts(c: NodeConfig, step: Step) {
    step.Swept? && Untainted(c, step.node, step.sweep)
  }

  lemma SweptAt(c: NodeConfig, steps: seq<Step>, tables: seq<Tracked>, n: nat)
    requires Run(c, steps, tables) && n < |steps| && steps[n].Swept?
    ensures SweepRun(c, steps[n].scene, steps[n].node, tables[n], steps[n].sweep)
    ensures tables[n + 1] == Kept(tables[n], steps[n].sweep.cleanings)
  {
    assert DoneAt(c, steps, tables, n);
  }

  /** When the taint is lifted, the pod of a recorded volume may be ignored or is cleaned by that very sweep. */
  lemma RecordedAtTheLift(c: NodeConfig, steps: seq<Step>, tables: seq<Tracked>, n: nat, key: string, v: Volume)
    requires Run(c, steps, tables) && n < |steps| && Lifts(c, steps[n]) && Records(tables[n], key, v)
    ensures IgnoredAt(c, steps[n], key) || CleanedAt(c, steps, tables, n, key, v)
  {
    SweptAt(c, steps, tables, n);
    UntaintIsSafe(c, steps[n].scene, steps[n].node, tables[n], steps[n].sweep, key);
    LeavesOnlyForAReason(c, steps, tables, n, key);
  }

  /** When the taint is lifted, every volume that was ever recorded is of a pod that may be ignored, or its pod was
      cleaned by a sweep while it was recorded, or a watch event overlooked it. */
  lemma EveryVolumeIsAccountedFor(c: NodeConfig, steps: seq<Step>, tables: seq<Tracked>, i: nat, n: nat, key: string, v: Volume)
    requires Run(c, steps, tables) && i <= n < |steps| && Lifts(c, steps[n]) && Records(tables[i], key, v)
    ensures || (Records(tables[n], key, v) && IgnoredAt(c, steps[n], key))
            || (exists m :: i <= m <= n && CleanedAt(c, steps, tables, m, key, v))
            || (exists m :: i <= m < n && OverlookedAt(c, steps, tables, m, key, v))
  {
    if Records(tables[n], key, v) {
      RecordedAtTheLift(c, steps, tables, n, key, v);
    } else {
      var m := VolumeFate(c, steps, tables, i, n, key, v);
      assert CleanedAt(c, steps, tables, m, key, v) || OverlookedAt(c, steps, tables, m, key, v);
    }
  }

  // ---------------------------------------------------------------- a pod that was created again

  /** The directories of the pod hold one readable mount and no device. */
  function OneMount(pod: Pod): Watch {
    Watch(Monitor.Added, pod, Ok(["pv"]), Ok([]), [Ok("volume")], [], None)
  }

  function MountOf(pod: Pod): Volume {
    Volume(VolumeInfo(VolumesDir(pod.uid) + "/" + "pv" + "/mount", "volume", "pv"), false, pod.uid)
  }

  lemma OneMountRecords(c: NodeConfig, pod: Pod, tracked: Tracked)
    requires pod.namespace != c.driverNamespace && pod.nodeName == c.nodeName
    requires KeyOf(pod) in tracked ==> |tracked[KeyOf(pod)].mounts| <= 1 && |tracked[KeyOf(pod)].devices| == 0
    ensures OneMount(pod).Answered() && OneMount(pod).Stores(c, tracked)
    ensures OneMount(pod).Info() == NodePodInfo(pod, pod.uid, [MountOf(pod).info], [])
    ensures VolumesOf(OneMount(pod).Info()) == [MountOf(pod)]
  {
    var w := OneMount(pod);
    assert w.volumes.value[..0] == [] && w.volumeAnswers[..0] == [];
    assert Found(VolumesDir(pod.uid), "/mount", ["pv"], [Ok("volume")]) ==
           Found(VolumesDir(pod.uid), "/mount", [], []) + [MountOf(pod).info];
  }

  /** A sweep that ignores the only tracked pod, because it runs here, and lifts the taint. */
  function IgnoringSweep(c: NodeConfig, pod: Pod): Sweep {
    Sweep([Visit(KeyOf(pod), OneMount(pod).Info(), [Some(pod)], Ignored)], [], [Did(TaintNode(c.nodeName, c.podmonTaint, NO_SCHEDULE, true), None)])
  }

  lemma IgnoringSweepIsPossible(c: NodeConfig, pod: Pod, scene: Scene)
    requires pod.namespace != c.driverNamespace && pod.nodeName == c.nodeName
    requires BelongsHere(Some(pod), scene.nodeIP)
    ensures SweepRun(c, scene, c.nodeName, map[KeyOf(pod) := OneMount(pod).Info()], IgnoringSweep(c, pod))
  {
    OneMountRecords(c, pod, map[]);
    var tracked: Tracked := map[KeyOf(pod) := OneMount(pod).Info()];
    var v := IgnoringSweep(c, pod).visits[0];
    assert [v][..0] == [];
    assert FairVisit(c, scene, tracked, v) && FairVisits(c, scene, tracked, []);
    assert Unvisited(tracked.Keys, [v]) == Unvisited(tracked.Keys, []) - {v.key} == {};
    assert ToBeCleaned([v]) == ToBeCleaned([]) == [];
    assert NoneSkipped([]) && NoneSkipped([v]);
  }

  /** For every pod that is created again under its old name on the same node, with as many volumes, there is a run in
      which the taint is lifted although the old instance's volume was recorded and no sweep ever cleaned anything. */
  lemma RecreatedPodHidesOldVolume(c: NodeConfig, earlier: Pod, later: Pod, scene: Scene) returns (steps: seq<Step>, tables: seq<Tracked>)
    requires KeyOf(earlier) == KeyOf(later) && earlier.uid != later.uid
    requires earlier.namespace != c.driverNamespace && earlier.nodeName == c.nodeName
    requires later.namespace != c.driverNamespace && later.nodeName == c.nodeName && BelongsHere(Some(later), scene.nodeIP)
    ensures Run(c, steps, tables) && |steps| == 3 && Lifts(c, steps[2]) && Records(tables[1], KeyOf(earlier), MountOf(earlier))
    ensures forall m :: 0 <= m < 3 && steps[m].Swept? ==> steps[m].sweep.cleanings == []
    ensures OverlookedAt(c, steps, tables, 1, KeyOf(earlier), MountOf(earlier))
    ensures !Records(tables[2], KeyOf(earlier), MountOf(earlier)) && !Records(tables[3], KeyOf(earlier), MountOf(earlier))
  {
    var key := KeyOf(earlier);
    var t1: Tracked, t2: Tracked := map[key := OneMount(earlier).Info()], map[key := OneMount(later).Info()];
    OneMountRecords(c, earlier, map[]);
    OneMountRecords(c, later, t1);
    IgnoringSweepIsPossible(c, later, scene);
    steps := [Watched(OneMount(earlier)), Watched(OneMount(later)), Swept(scene, c.nodeName, IgnoringSweep(c, later))];
    tables := [map[], t1, t2, t2];
    assert OneMount(earlier).After(c, map[]) == t1 && OneMount(later).After(c, t1) == t2;
    assert DoneAt(c, steps, tables, 0) && DoneAt(c, steps, tables, 1) && DoneAt(c, steps, tables, 2);
    forall i | 0 <= i < |steps| ensures DoneAt(c, steps, tables, i) {
      assert i == 0 || i == 1 || i == 2;
    }
  }
}
