/** The clean-up half of a poll round: the listed pods are handed over, one after another. */
module HandOffs {
  import opened Kube
  import opened World
  import opened Monitor
  import opened ControllerCleanup
  import opened ControllerHandler
  import opened ArrayMonitor

  /** A record handed over: loaded[i] of the chronicle is when it was loaded, checked when the clean-up looked at the
      records again; what reading its pod answered, whether the records named another instance by then, and the clean-up
      that followed, if any. */
  datatype HandOff = HandOff(info: PodInfo, loaded: nat, pod: Option<Pod>, checked: nat, stale: bool, run: Run) {
    function Log(): seq<Event> { [PodRead(info.podKey, pod)] + run.Flat() }

    /** The pod is still the recorded instance, on the recorded node. */
    predicate Matches() {
      pod.Some? && pod.value.uid == info.podUID && pod.value.nodeName == info.node.name
    }

    function Task(config: Config): Job
      requires pod.Some?
    {
      Job(config, pod.value, info.node, false, false)
    }
  }

  ghost predicate HandOffRun(config: Config, h: HandOff) {
    && (h.pod.Some? ==> KeyOf(h.pod.value) == h.info.podKey)
    && if h.Matches() then CleanupRun(h.Task(config), h.stale, h.run) else h.run == NO_RUN
  }

  ghost predicate IsRecord(r: Chronicle, at: nat, info: PodInfo) {
    at < |r.past| && info.podKey in r.past[at].infos && r.past[at].infos[info.podKey] == info
  }

  /** The record was stored when it was loaded, and whether the clean-up finds it stale is what was stored later on. */
  ghost predicate Loaded(r: Chronicle, h: HandOff) {
    && IsRecord(r, h.loaded, h.info)
    && h.loaded <= h.checked < |r.past|
    && (h.Matches() ==> h.stale == Stale(r.past[h.checked].infos, h.pod.value))
  }

  ghost predicate AllLoaded(r: Chronicle, handOffs: seq<HandOff>) {
    handOffs == [] || (AllLoaded(r, handOffs[..|handOffs| - 1]) && Loaded(r, handOffs[|handOffs| - 1]))
  }

  lemma {:induction false} LoadedStays(before: Chronicle, r: Chronicle, handOffs: seq<HandOff>)
    requires r.Continues(before) && AllLoaded(before, handOffs)
    ensures AllLoaded(r, handOffs)
  {
    if handOffs != [] { LoadedStays(before, r, handOffs[..|handOffs| - 1]); }
  }

  lemma {:induction false} AllLoadedMeaning(r: Chronicle, handOffs: seq<HandOff>, i: nat)
    requires AllLoaded(r, handOffs) && i < |handOffs|
    ensures Loaded(r, handOffs[i])
  {
    if i < |handOffs| - 1 { AllLoadedMeaning(r, handOffs[..|handOffs| - 1], i); }
  }

  lemma RecordStays(before: Chronicle, r: Chronicle, at: nat, info: PodInfo)
    requires r.Continues(before) && IsRecord(before, at, info)
    ensures IsRecord(r, at, info)
  {
  }

  /** info was loaded from the records; other goroutines may change them meanwhile, unless the monitor is alone. */
  method ProcessPodInfoForCleanup(cm: PodMonitor, world: World, info: PodInfo, alone: bool, ghost loaded: nat, ghost before: Chronicle)
    returns (ghost h: HandOff, ghost r: Chronicle)
    requires Follows(cm.config, before, cm.infos, cm.nodeUIDs) && IsRecord(before, loaded, info) && IsPodKey(info.podKey)
    modifies cm`infos, cm`nodeUIDs, world`trace
    ensures world.trace == old(world.trace) + h.Log()
    ensures h.info == info && h.loaded == loaded && HandOffRun(cm.config, h)
    ensures Follows(cm.config, r, cm.infos, cm.nodeUIDs) && r.Continues(before) && Loaded(r, h)
    ensures alone ==> h.Matches() ==> h.stale == Stale(old(cm.infos), h.pod.value)
    ensures alone ==> cm.nodeUIDs == old(cm.nodeUIDs)
    ensures alone ==> cm.infos == if ForceDeleted(h.run.delete) then old(cm.infos) - {info.podKey} else old(cm.infos)
  {
    KeySplits(info.podKey);
    var (namespace, name) := SplitPodKey(info.podKey);
    var pod := world.ReadPod(namespace, name);
    ghost var middle := Yield(cm, alone, before);
    RecordStays(before, middle, loaded, info);
    h, r := CleanUpIfSame(cm, world, info, pod, loaded, middle);
    Regroup(old(world.trace), [PodRead(info.podKey, pod)], h.run.Flat());
  }

  /** The clean-up of a pod, if it is still what its record says. */
  method CleanUpIfSame(cm: PodMonitor, world: World, info: PodInfo, pod: Option<Pod>, ghost loaded: nat, ghost before: Chronicle)
    returns (ghost h: HandOff, ghost r: Chronicle)
    requires Follows(cm.config, before, cm.infos, cm.nodeUIDs) && IsRecord(before, loaded, info)
    requires pod.Some? ==> KeyOf(pod.value) == info.podKey
    modifies cm`infos, world`trace
    ensures world.trace == old(world.trace) + h.run.Flat()
    ensures h.info == info && h.loaded == loaded && h.pod == pod && HandOffRun(cm.config, h)
    ensures Follows(cm.config, r, cm.infos, cm.nodeUIDs) && r.Continues(before) && Loaded(r, h)
    ensures h.Matches() ==> h.stale == Stale(old(cm.infos), h.pod.value)
    ensures cm.infos == if ForceDeleted(h.run.delete) then old(cm.infos) - {info.podKey} else old(cm.infos)
  {
    r := before;
    ghost var stale, run := false, NO_RUN;
    if pod.Some? && pod.value.uid == info.podUID && pod.value.nodeName == info.node.name {
      stale := Stale(cm.infos, pod.value);
      run, r := CleanUpRecorded(cm, world, info, pod.value, r);
    }
    h := HandOff(info, loaded, pod, |before.past| - 1, stale, run);
    RecordStays(before, r, loaded, info);
  }

  /** The clean-up of a pod that is what its record says. */
  method CleanUpRecorded(cm: PodMonitor, world: World, info: PodInfo, pod: Pod, ghost before: Chronicle)
    returns (ghost run: Run, ghost r: Chronicle)
    requires Follows(cm.config, before, cm.infos, cm.nodeUIDs)
    modifies cm`infos, world`trace
    ensures world.trace == old(world.trace) + run.Flat()
    ensures CleanupRun(Job(cm.config, pod, info.node, false, false), Stale(old(cm.infos), pod), run)
    ensures cm.infos == if ForceDeleted(run.delete) then old(cm.infos) - {KeyOf(pod)} else old(cm.infos)
    ensures Follows(cm.config, r, cm.infos, cm.nodeUIDs) && r.Continues(before)
  {
    var done;
    done, run := ControllerCleanupPod(cm, world, Job(cm.config, pod, info.node, false, false));
    r := before;
    if ForceDeleted(run.delete) {
      FollowsOn(cm.config, before, old(cm.infos), cm.nodeUIDs, ByCleanup(KeyOf(pod)));
      r := before.Then(cm.config, ByCleanup(KeyOf(pod)));
    }
  }

  function Logs(handOffs: seq<HandOff>): seq<Event> {
    if handOffs == [] then [] else Logs(handOffs[..|handOffs| - 1]) + handOffs[|handOffs| - 1].Log()
  }

  /** The pods that were handed over. */
  function Handed(handOffs: seq<HandOff>): set<string> {
    if handOffs == [] then {} else Handed(handOffs[..|handOffs| - 1]) + {handOffs[|handOffs| - 1].info.podKey}
  }

  /** The pods a sequence of hand-offs force deleted. */
  function Gone(handOffs: seq<HandOff>): set<string> {
    if handOffs == [] then {}
    else
      var last := handOffs[|handOffs| - 1];
      Gone(handOffs[..|handOffs| - 1]) + if ForceDeleted(last.run.delete) then {last.info.podKey} else {}
  }

  /** Each hand-off is of a listed pod. */
  ghost predicate HandedOver(config: Config, podKeys: seq<string>, handOffs: seq<HandOff>) {
    handOffs == [] ||
    var before, last := handOffs[..|handOffs| - 1], handOffs[|handOffs| - 1];
    HandedOver(config, podKeys, before) && HandOffRun(config, last) && last.info.podKey in podKeys
  }

  /** Each pod is handed over as it was recorded at the start, and no earlier hand-off deleted it. */
  ghost predicate Handing(start: map<string, PodInfo>, handOffs: seq<HandOff>) {
    handOffs == [] ||
    var before, last := handOffs[..|handOffs| - 1], handOffs[|handOffs| - 1];
    && Handing(start, before)
    && last.info.podKey in start && start[last.info.podKey] == last.info
    && last.info.podKey !in Gone(before)
    && (last.Matches() ==> !last.stale)
  }

  lemma OneMoreHanded(handOffs: seq<HandOff>, h: HandOff)
    ensures (handOffs + [h])[..|handOffs|] == handOffs
    ensures Gone(handOffs + [h]) == Gone(handOffs) + if ForceDeleted(h.run.delete) then {h.info.podKey} else {}
    ensures Handed(handOffs + [h]) == Handed(handOffs) + {h.info.podKey}
  {
    assert (handOffs + [h])[..|handOffs|] == handOffs;
  }

  lemma {:induction false} GoneWereHanded(handOffs: seq<HandOff>)
    ensures Gone(handOffs) <= Handed(handOffs)
  {
    if handOffs != [] { GoneWereHanded(handOffs[..|handOffs| - 1]); }
  }

  lemma LogsAdded(trace: seq<Event>, handOffs: seq<HandOff>, h: HandOff)
    ensures trace + Logs(handOffs) + h.Log() == trace + Logs(handOffs + [h])
  {
    assert (handOffs + [h])[..|handOffs|] == handOffs;
    Regroup(trace, Logs(handOffs), h.Log());
  }

  /** The state of the clean-up half of a round: what was written, and, if the monitor is alone, which records are
      left. */
  ghost predicate HandingState(config: Config, alone: bool, start: map<string, PodInfo>, podKeys: seq<string>, t0: seq<Event>,
                               handOffs: seq<HandOff>, r: Chronicle, infos: map<string, PodInfo>, uids: map<string, string>,
                               trace: seq<Event>)
  {
    && HandedOver(config, podKeys, handOffs)
    && AllLoaded(r, handOffs) && Follows(config, r, infos, uids)
    && trace == t0 + Logs(handOffs)
    && (alone ==> Handing(start, handOffs) && infos == start - Gone(handOffs))
  }

  lemma HandingStateOn(config: Config, alone: bool, start: map<string, PodInfo>, podKeys: seq<string>, t0: seq<Event>,
                       handOffs: seq<HandOff>, r: Chronicle, r': Chronicle, infos: map<string, PodInfo>,
                       infos': map<string, PodInfo>, uids: map<string, string>, uids': map<string, string>, trace: seq<Event>,
                       h: HandOff)
    requires HandingState(config, alone, start, podKeys, t0, handOffs, r, infos, uids, trace)
    requires HandOffRun(config, h) && h.info.podKey in podKeys
    requires Follows(config, r', infos', uids') && r'.Continues(r) && Loaded(r', h)
    requires alone ==>
               && h.info.podKey in infos && infos[h.info.podKey] == h.info && (h.Matches() ==> !h.stale)
               && infos' == if ForceDeleted(h.run.delete) then infos - {h.info.podKey} else infos
    ensures HandingState(config, alone, start, podKeys, t0, handOffs + [h], r', infos', uids', trace + h.Log())
  {
    HandedOverOn(config, podKeys, handOffs, h);
    LoadedStays(r, r', handOffs);
    OneMoreHanded(handOffs, h);
    if alone { HandingOn(start, handOffs, h); }
    LogsAdded(t0, handOffs, h);
  }

  lemma HandedOverOn(config: Config, podKeys: seq<string>, handOffs: seq<HandOff>, h: HandOff)
    requires HandedOver(config, podKeys, handOffs) && HandOffRun(config, h) && h.info.podKey in podKeys
    ensures HandedOver(config, podKeys, handOffs + [h])
  {
    OneMoreHanded(handOffs, h);
  }

  lemma HandingOn(start: map<string, PodInfo>, handOffs: seq<HandOff>, h: HandOff)
    requires Handing(start, handOffs) && h.info.podKey in start - Gone(handOffs) && start[h.info.podKey] == h.info
    requires h.Matches() ==> !h.stale
    ensures Handing(start, handOffs + [h])
    ensures start - Gone(handOffs + [h]) ==
            if ForceDeleted(h.run.delete) then (start - Gone(handOffs)) - {h.info.podKey} else start - Gone(handOffs)
  {
    OneMoreHanded(handOffs, h);
  }

  /** The pod was handed over, and no other. */
  ghost predicate OneHanded(before: seq<HandOff>, podKey: string, handOffs: seq<HandOff>) {
    |handOffs| == |before| + 1 && before <= handOffs && handOffs[|before|].info.podKey == podKey
  }

  /** The pod was handed over if it was still recorded with these labels, and otherwise none was. */
  ghost predicate HandedIfAffine(start: map<string, PodInfo>, labels: map<string, string>, podKey: string, before: seq<HandOff>,
                                 handOffs: seq<HandOff>)
  {
    if podKey in start - Gone(before) && start[podKey].affinity == labels then OneHanded(before, podKey, handOffs) else handOffs == before
  }

  /** Since then exactly the listed pods with these labels that were still recorded have been handed over. */
  ghost predicate TakenAlong(start: map<string, PodInfo>, labels: map<string, string>, podKeys: seq<string>, before: seq<HandOff>,
                             handOffs: seq<HandOff>)
  {
    before <= handOffs && Handed(handOffs[|before|..]) == Affine(start - Gone(before), labels, podKeys)
  }

  lemma {:induction false} HandedOn(a: seq<HandOff>, b: seq<HandOff>)
    ensures Handed(a + b) == Handed(a) + Handed(b) && Gone(a + b) == Gone(a) + Gone(b)
  {
    if b == [] {
      assert a + b == a;
    } else {
      HandedOn(a, b[..|b| - 1]);
      OneMoreHanded(a + b[..|b| - 1], b[|b| - 1]);
      assert a + b == a + b[..|b| - 1] + [b[|b| - 1]];
    }
  }

  lemma TakenAlongNext(start: map<string, PodInfo>, labels: map<string, string>, podKeys: seq<string>, i: nat, before: seq<HandOff>,
                       middle: seq<HandOff>, handOffs: seq<HandOff>)
    requires i < |podKeys| && TakenAlong(start, labels, podKeys[..i], before, middle)
    requires HandedIfAffine(start, labels, podKeys[i], middle, handOffs)
    ensures TakenAlong(start, labels, podKeys[..i + 1], before, handOffs)
  {
    var since := middle[|before|..];
    ListedOn(start - Gone(before), labels, podKeys, i);
    HandedOn(before, since);
    GoneWereHanded(since);
    assert middle == before + since;
    if handOffs != middle {
      assert handOffs[|before|..] == since + [handOffs[|middle|]];
      OneMoreHanded(since, handOffs[|middle|]);
    }
  }

  /** One hand-off inside the loops. */
  method HandOver(cm: PodMonitor, world: World, podInfo: PodInfo, podKeys: seq<string>, alone: bool,
                  ghost start: map<string, PodInfo>, ghost t0: seq<Event>, ghost before: seq<HandOff>, ghost r0: Chronicle)
    returns (ghost handOffs: seq<HandOff>, ghost r: Chronicle)
    requires podInfo.podKey in podKeys && podInfo.podKey in cm.infos && cm.infos[podInfo.podKey] == podInfo
    requires HandingState(cm.config, alone, start, podKeys, t0, before, r0, cm.infos, cm.nodeUIDs, world.trace)
    modifies cm`infos, cm`nodeUIDs, world`trace
    ensures HandingState(cm.config, alone, start, podKeys, t0, handOffs, r, cm.infos, cm.nodeUIDs, world.trace) && r.Continues(r0)
    ensures Handed(handOffs) == Handed(before) + {podInfo.podKey} && OneHanded(before, podInfo.podKey, handOffs)
    ensures |handOffs| == |before| + 1 && (alone ==> cm.nodeUIDs == old(cm.nodeUIDs))
  {
    ghost var h;
    h, r := ProcessPodInfoForCleanup(cm, world, podInfo, alone, |r0.past| - 1, r0);
    HandingStateOn(cm.config, alone, start, podKeys, t0, before, r0, r, old(cm.infos), cm.infos, old(cm.nodeUIDs), cm.nodeUIDs,
                   old(world.trace), h);
    OneMoreHanded(before, h);
    handOffs := before + [h];
  }

  /** Time for other goroutines, unless the monitor is alone. */
  method Pause(cm: PodMonitor, alone: bool, ghost start: map<string, PodInfo>, ghost podKeys: seq<string>, ghost t0: seq<Event>,
               ghost handOffs: seq<HandOff>, ghost trace: seq<Event>, ghost r0: Chronicle)
    returns (ghost r: Chronicle)
    requires HandingState(cm.config, alone, start, podKeys, t0, handOffs, r0, cm.infos, cm.nodeUIDs, trace)
    modifies cm`infos, cm`nodeUIDs
    ensures HandingState(cm.config, alone, start, podKeys, t0, handOffs, r, cm.infos, cm.nodeUIDs, trace) && r.Continues(r0)
    ensures alone ==> cm.nodeUIDs == old(cm.nodeUIDs)
  {
    r := Yield(cm, alone, r0);
    LoadedStays(r0, r, handOffs);
  }

  /** The listed pods that are recorded with these labels. */
  function Affine(infos: map<string, PodInfo>, labels: map<string, string>, podKeys: seq<string>): set<string> {
    if podKeys == [] then {}
    else
      var last := podKeys[|podKeys| - 1];
      Affine(infos, labels, podKeys[..|podKeys| - 1]) + if last in infos && infos[last].affinity == labels then {last} else {}
  }

  lemma {:induction false} ListedMeaning(infos: map<string, PodInfo>, labels: map<string, string>, podKeys: seq<string>, k: string)
    ensures k in Affine(infos, labels, podKeys) <==> k in podKeys && k in infos && infos[k].affinity == labels
  {
    if podKeys != [] {
      var before, last := podKeys[..|podKeys| - 1], podKeys[|podKeys| - 1];
      ListedMeaning(infos, labels, before, k);
      assert podKeys == before + [last];
    }
  }

  lemma ListedOn(infos: map<string, PodInfo>, labels: map<string, string>, podKeys: seq<string>, i: nat)
    requires i < |podKeys|
    ensures Affine(infos, labels, podKeys[..i + 1]) == Affine(infos, labels, podKeys[..i]) +
              if podKeys[i] in infos && infos[podKeys[i]].affinity == labels then {podKeys[i]} else {}
  {
    assert podKeys[..i + 1][..i] == podKeys[..i];
  }

  /** The inner loop: hands over every listed pod that still has a record with these labels. */
  method CleanAffine(cm: PodMonitor, world: World, podKeys: seq<string>, labels: map<string, string>, alone: bool,
                     ghost start: map<string, PodInfo>, ghost t0: seq<Event>, ghost before: seq<HandOff>, ghost r0: Chronicle)
    returns (ghost handOffs: seq<HandOff>, ghost r: Chronicle)
    requires HandingState(cm.config, alone, start, podKeys, t0, before, r0, cm.infos, cm.nodeUIDs, world.trace)
    modifies cm`infos, cm`nodeUIDs, world`trace
    ensures HandingState(cm.config, alone, start, podKeys, t0, handOffs, r, cm.infos, cm.nodeUIDs, world.trace) && r.Continues(r0)
    ensures |handOffs| <= |before| + |podKeys|
    ensures alone ==> TakenAlong(start, labels, podKeys, before, handOffs) && cm.nodeUIDs == old(cm.nodeUIDs)
  {
    handOffs, r := before, r0;
    for i := 0 to |podKeys|
      invariant HandingState(cm.config, alone, start, podKeys, t0, handOffs, r, cm.infos, cm.nodeUIDs, world.trace)
      invariant r.Continues(r0) && |handOffs| <= |before| + i
      invariant alone ==> TakenAlong(start, labels, podKeys[..i], before, handOffs) && cm.nodeUIDs == old(cm.nodeUIDs)
    {
      handOffs, r := CleanIfAffine(cm, world, podKeys, i, labels, alone, start, t0, before, handOffs, r);
    }
    assert podKeys[..|podKeys|] == podKeys;
  }

  /** The inner loop's body; the group began after the hand-offs in group. */
  method CleanIfAffine(cm: PodMonitor, world: World, podKeys: seq<string>, i: nat, labels: map<string, string>, alone: bool,
                       ghost start: map<string, PodInfo>, ghost t0: seq<Event>, ghost group: seq<HandOff>, ghost before: seq<HandOff>,
                       ghost r0: Chronicle)
    returns (ghost handOffs: seq<HandOff>, ghost r: Chronicle)
    requires i < |podKeys| && (alone ==> TakenAlong(start, labels, podKeys[..i], group, before))
    requires HandingState(cm.config, alone, start, podKeys, t0, before, r0, cm.infos, cm.nodeUIDs, world.trace)
    modifies cm`infos, cm`nodeUIDs, world`trace
    ensures HandingState(cm.config, alone, start, podKeys, t0, handOffs, r, cm.infos, cm.nodeUIDs, world.trace) && r.Continues(r0)
    ensures |handOffs| <= |before| + 1
    ensures alone ==> cm.nodeUIDs == old(cm.nodeUIDs) && TakenAlong(start, labels, podKeys[..i + 1], group, handOffs)
  {
    handOffs := before;
    r := Pause(cm, alone, start, podKeys, t0, handOffs, world.trace, r0);
    if podKeys[i] in cm.infos {
      var podInfo := cm.infos[podKeys[i]];
      var equal := MapEqualsMap(labels, podInfo.affinity);
      if equal { handOffs, r := HandOver(cm, world, podInfo, podKeys, alone, start, t0, handOffs, r); }
    }
    if alone { TakenAlongNext(start, labels, podKeys, i, group, before, handOffs); }
  }

  /** If the pod was still recorded, it was handed over: alone, or, with labels, together with exactly the listed pods of
      equal labels that were still recorded too. */
  ghost predicate GroupHanded(start: map<string, PodInfo>, podKeys: seq<string>, podKey: string, before: seq<HandOff>,
                              handOffs: seq<HandOff>)
  {
    if podKey !in start - Gone(before) then handOffs == before
    else if start[podKey].affinity == map[] then OneHanded(before, podKey, handOffs)
    else TakenAlong(start, start[podKey].affinity, podKeys, before, handOffs)
  }

  /** Group i is that of the listed pod i; it begins at cuts[i]. */
  ghost predicate GroupAt(start: map<string, PodInfo>, podKeys: seq<string>, handOffs: seq<HandOff>, cuts: seq<nat>, i: nat)
    requires i < |podKeys| && i + 1 < |cuts|
  {
    && cuts[i] <= cuts[i + 1] <= |handOffs|
    && GroupHanded(start, podKeys, podKeys[i], handOffs[..cuts[i]], handOffs[..cuts[i + 1]])
  }

  /** So far one group after another, for the first listed pods. */
  ghost predicate Grouped(start: map<string, PodInfo>, podKeys: seq<string>, handOffs: seq<HandOff>, cuts: seq<nat>) {
    && 1 <= |cuts| <= |podKeys| + 1 && cuts[0] == 0 && cuts[|cuts| - 1] == |handOffs|
    && forall i :: 0 <= i < |cuts| - 1 ==> GroupAt(start, podKeys, handOffs, cuts, i)
  }

  /** One group after another, for every listed pod. */
  ghost predicate InGroups(start: map<string, PodInfo>, podKeys: seq<string>, handOffs: seq<HandOff>) {
    exists cuts :: Grouped(start, podKeys, handOffs, cuts) && |cuts| == |podKeys| + 1
  }

  lemma GroupsOn(start: map<string, PodInfo>, podKeys: seq<string>, before: seq<HandOff>, handOffs: seq<HandOff>, cuts: seq<nat>)
    requires Grouped(start, podKeys, before, cuts) && |cuts| <= |podKeys|
    requires GroupHanded(start, podKeys, podKeys[|cuts| - 1], before, handOffs)
    ensures Grouped(start, podKeys, handOffs, cuts + [|handOffs|])
  {
    var more := cuts + [|handOffs|];
    assert handOffs[..|before|] == before && handOffs[..|handOffs|] == handOffs;
    forall i | 0 <= i < |cuts| ensures GroupAt(start, podKeys, handOffs, more, i) {
      if i < |cuts| - 1 {
        assert GroupAt(start, podKeys, before, cuts, i);
        assert handOffs[..cuts[i]] == before[..cuts[i]] && handOffs[..cuts[i + 1]] == before[..cuts[i + 1]];
      }
    }
  }

  /** The outer loop's body: a pod with affinity labels takes all listed pods with equal labels along. */
  method CleanNext(cm: PodMonitor, world: World, podKeys: seq<string>, i: nat, alone: bool, ghost start: map<string, PodInfo>,
                   ghost t0: seq<Event>, ghost before: seq<HandOff>, ghost r0: Chronicle)
    returns (ghost handOffs: seq<HandOff>, ghost r: Chronicle)
    requires i < |podKeys|
    requires HandingState(cm.config, alone, start, podKeys, t0, before, r0, cm.infos, cm.nodeUIDs, world.trace)
    modifies cm`infos, cm`nodeUIDs, world`trace
    ensures HandingState(cm.config, alone, start, podKeys, t0, handOffs, r, cm.infos, cm.nodeUIDs, world.trace) && r.Continues(r0)
    ensures |handOffs| <= |before| + |podKeys|
    ensures alone ==> GroupHanded(start, podKeys, podKeys[i], before, handOffs) && cm.nodeUIDs == old(cm.nodeUIDs)
  {
    handOffs := before;
    r := Pause(cm, alone, start, podKeys, t0, handOffs, world.trace, r0);
    if podKeys[i] in cm.infos {
      var podInfo := cm.infos[podKeys[i]];
      if |podInfo.affinity| > 0 {
        handOffs, r := CleanAffine(cm, world, podKeys, podInfo.affinity, alone, start, t0, handOffs, r);
      } else {
        handOffs, r := HandOver(cm, world, podInfo, podKeys, alone, start, t0, handOffs, r);
      }
    }
  }

  /** Every listed pod that still has a record is handed over. The records are loaded anew each time. */
  method CleanPods(cm: PodMonitor, world: World, podKeys: seq<string>, alone: bool, ghost r0: Chronicle)
    returns (ghost handOffs: seq<HandOff>, ghost r: Chronicle)
    requires Follows(cm.config, r0, cm.infos, cm.nodeUIDs)
    modifies cm`infos, cm`nodeUIDs, world`trace
    ensures HandingState(cm.config, alone, old(cm.infos), podKeys, old(world.trace), handOffs, r, cm.infos, cm.nodeUIDs, world.trace)
    ensures r.Continues(r0)
    ensures alone ==> InGroups(old(cm.infos), podKeys, handOffs) && cm.nodeUIDs == old(cm.nodeUIDs)
    ensures |handOffs| <= |podKeys| * |podKeys|
  {
    handOffs, r := [], r0;
    ghost var start, t0 := cm.infos, world.trace;
    ghost var cuts: seq<nat> := [0];
    for i := 0 to |podKeys|
      invariant HandingState(cm.config, alone, start, podKeys, t0, handOffs, r, cm.infos, cm.nodeUIDs, world.trace)
      invariant r.Continues(r0)
      invariant alone ==> Grouped(start, podKeys, handOffs, cuts) && |cuts| == i + 1 && cm.nodeUIDs == old(cm.nodeUIDs)
      invariant |handOffs| <= i * |podKeys|
    {
      ghost var before := handOffs;
      handOffs, r := CleanNext(cm, world, podKeys, i, alone, start, t0, handOffs, r);
      if alone { GroupsOn(start, podKeys, before, handOffs, cuts); }
      cuts := cuts + [|handOffs|];
      assert (i + 1) * |podKeys| == i * |podKeys| + |podKeys|;
    }
  }

  // ---------------------------------------------------------------- groups

  lemma {:induction false} HandedMeaning(handOffs: seq<HandOff>, podKey: string)
    ensures podKey in Handed(handOffs) <==> exists i :: 0 <= i < |handOffs| && handOffs[i].info.podKey == podKey
  {
    if handOffs != [] {
      var before := handOffs[..|handOffs| - 1];
      HandedMeaning(before, podKey);
      if i :| 0 <= i < |handOffs| && handOffs[i].info.podKey == podKey {
        assert i < |before| ==> before[i].info.podKey == podKey;
      }
      if i :| 0 <= i < |before| && before[i].info.podKey == podKey { assert handOffs[i].info.podKey == podKey; }
    }
  }

  /** The pod is handed over from position a on and before b. */
  ghost predicate IsHanded(handOffs: seq<HandOff>, a: nat, b: nat, podKey: string) {
    exists i :: a <= i < b <= |handOffs| && handOffs[i].info.podKey == podKey
  }

  lemma HandedBetween(handOffs: seq<HandOff>, a: nat, b: nat, podKey: string)
    requires a <= b <= |handOffs|
    ensures podKey in Handed(handOffs[..b][a..]) <==> IsHanded(handOffs, a, b, podKey)
  {
    var since := handOffs[..b][a..];
    HandedMeaning(since, podKey);
    if i :| 0 <= i < |since| && since[i].info.podKey == podKey { assert handOffs[a + i].info.podKey == podKey; }
    if i :| a <= i < b && handOffs[i].info.podKey == podKey { assert since[i - a].info.podKey == podKey; }
  }

  /** The hand-off is of a pod that was recorded with these labels. */
  ghost predicate WithLabels(start: map<string, PodInfo>, labels: map<string, string>, podKey: string) {
    podKey in start && start[podKey].affinity == labels
  }

  /** A group holds pods of its own labels only, and the pod it was begun for, unless that is gone. */
  lemma GroupHolds(start: map<string, PodInfo>, podKeys: seq<string>, handOffs: seq<HandOff>, cuts: seq<nat>, i: nat)
    requires i < |podKeys| && i + 1 < |cuts| && GroupAt(start, podKeys, handOffs, cuts, i)
    ensures forall k :: cuts[i] <= k < cuts[i + 1] ==>
              podKeys[i] in start && WithLabels(start, start[podKeys[i]].affinity, handOffs[k].info.podKey)
    ensures podKeys[i] in start - Gone(handOffs[..cuts[i]]) ==> IsHanded(handOffs, cuts[i], cuts[i + 1], podKeys[i])
  {
    var before, podKey := handOffs[..cuts[i]], podKeys[i];
    if podKey in start - Gone(before) {
      if start[podKey].affinity == map[] {
        assert handOffs[..cuts[i + 1]][cuts[i]] == handOffs[cuts[i]];
      } else {
        forall k | cuts[i] <= k < cuts[i + 1] ensures WithLabels(start, start[podKey].affinity, handOffs[k].info.podKey) {
          InGroupOf(start, podKeys, handOffs, cuts, i, handOffs[k].info.podKey);
        }
        InGroupOf(start, podKeys, handOffs, cuts, i, podKey);
      }
    }
  }

  lemma InGroupOf(start: map<string, PodInfo>, podKeys: seq<string>, handOffs: seq<HandOff>, cuts: seq<nat>, i: nat, podKey: string)
    requires i < |podKeys| && i + 1 < |cuts| && GroupAt(start, podKeys, handOffs, cuts, i)
    requires podKeys[i] in start - Gone(handOffs[..cuts[i]]) && start[podKeys[i]].affinity != map[]
    ensures IsHanded(handOffs, cuts[i], cuts[i + 1], podKey) <==>
            podKey in podKeys && podKey !in Gone(handOffs[..cuts[i]]) && WithLabels(start, start[podKeys[i]].affinity, podKey)
  {
    HandedBetween(handOffs, cuts[i], cuts[i + 1], podKey);
    ListedMeaning(start - Gone(handOffs[..cuts[i]]), start[podKeys[i]].affinity, podKeys, podKey);
  }

  /** Every listed pod that is recorded is handed over. */
  lemma GroupsCover(start: map<string, PodInfo>, podKeys: seq<string>, handOffs: seq<HandOff>, podKey: string)
    requires InGroups(start, podKeys, handOffs) && podKey in podKeys && podKey in start
    ensures exists k :: 0 <= k < |handOffs| && handOffs[k].info.podKey == podKey
  {
    var cuts :| Grouped(start, podKeys, handOffs, cuts) && |cuts| == |podKeys| + 1;
    var i :| 0 <= i < |podKeys| && podKeys[i] == podKey;
    assert GroupAt(start, podKeys, handOffs, cuts, i);
    GroupHolds(start, podKeys, handOffs, cuts, i);
    GoneWereHanded(handOffs[..cuts[i]]);
    HandedMeaning(handOffs[..cuts[i]], podKey);
    if k :| 0 <= k < |handOffs[..cuts[i]]| && handOffs[..cuts[i]][k].info.podKey == podKey {
      assert handOffs[k].info.podKey == podKey;
    }
  }

  /** The group a hand-off belongs to. */
  lemma {:induction false} GroupOf(start: map<string, PodInfo>, podKeys: seq<string>, handOffs: seq<HandOff>, cuts: seq<nat>, n: nat, k: nat)
    returns (i: nat)
    requires Grouped(start, podKeys, handOffs, cuts) && n < |cuts| && k < cuts[n]
    ensures i < n && cuts[i] <= k < cuts[i + 1]
  {
    assert GroupAt(start, podKeys, handOffs, cuts, n - 1);
    i := n - 1;
    if k < cuts[n - 1] { i := GroupOf(start, podKeys, handOffs, cuts, n - 1, k); }
  }

  /** The first listed pod with these labels. */
  lemma {:induction false} FirstWith(start: map<string, PodInfo>, podKeys: seq<string>, labels: map<string, string>, n: nat) returns (i: nat)
    requires n < |podKeys| && WithLabels(start, labels, podKeys[n])
    ensures i <= n && WithLabels(start, labels, podKeys[i])
    ensures forall k :: 0 <= k < i ==> !WithLabels(start, labels, podKeys[k])
  {
    if k: nat :| k < n && WithLabels(start, labels, podKeys[k]) {
      i := FirstWith(start, podKeys, labels, k);
    } else {
      i := n;
    }
  }

  /** Before the first of them has its turn, no pod with these labels is handed over. */
  lemma NoneBefore(start: map<string, PodInfo>, podKeys: seq<string>, handOffs: seq<HandOff>, cuts: seq<nat>, i: nat,
                   labels: map<string, string>, podKey: string)
    requires Grouped(start, podKeys, handOffs, cuts) && i < |cuts|
    requires forall k :: 0 <= k < i ==> !WithLabels(start, labels, podKeys[k])
    requires WithLabels(start, labels, podKey) && cuts[i] <= |handOffs|
    ensures podKey !in Gone(handOffs[..cuts[i]])
  {
    GoneWereHanded(handOffs[..cuts[i]]);
    HandedMeaning(handOffs[..cuts[i]], podKey);
    forall k: nat | k < cuts[i] ensures handOffs[k].info.podKey != podKey {
      var g := GroupOf(start, podKeys, handOffs, cuts, i, k);
      assert GroupAt(start, podKeys, handOffs, cuts, g);
      GroupHolds(start, podKeys, handOffs, cuts, g);
    }
  }

  /** Pods with equal labels are cleaned up together: there is a stretch of hand-offs, all of them of pods with these
      labels, that holds every listed pod with them. */
  lemma AffinePodsGoTogether(start: map<string, PodInfo>, podKeys: seq<string>, handOffs: seq<HandOff>, labels: map<string, string>)
    returns (a: nat, b: nat)
    requires InGroups(start, podKeys, handOffs) && labels != map[]
    ensures a <= b <= |handOffs| && forall k :: a <= k < b ==> WithLabels(start, labels, handOffs[k].info.podKey)
    ensures forall podKey :: podKey in podKeys && WithLabels(start, labels, podKey) ==> IsHanded(handOffs, a, b, podKey)
  {
    a, b := 0, 0;
    if n: nat :| n < |podKeys| && WithLabels(start, labels, podKeys[n]) {
      var cuts :| Grouped(start, podKeys, handOffs, cuts) && |cuts| == |podKeys| + 1;
      var i := FirstWith(start, podKeys, labels, n);
      assert GroupAt(start, podKeys, handOffs, cuts, i);
      GroupHolds(start, podKeys, handOffs, cuts, i);
      a, b := cuts[i], cuts[i + 1];
      NoneBefore(start, podKeys, handOffs, cuts, i, labels, podKeys[i]);
      forall podKey | podKey in podKeys && WithLabels(start, labels, podKey) ensures IsHanded(handOffs, a, b, podKey) {
        NoneBefore(start, podKeys, handOffs, cuts, i, labels, podKey);
        InGroupOf(start, podKeys, handOffs, cuts, i, podKey);
      }
    }
  }
}
