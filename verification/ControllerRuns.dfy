/** The controller as one serial process: watch events, node events, poll rounds and the clean-ups they start. */
module ControllerRuns {
  import opened Kube
  import opened World
  import opened Monitor
  import opened Connectivity
  import opened ControllerCleanup
  import opened CleanupSafety
  import opened ControllerHandler
  import opened HandlerSafety
  import opened ArrayMonitor
  import opened HandOffs
  import opened MonitorSafety
  import opened Promises

  /** jobs are the clean-ups started so far. */
  datatype State = State(infos: map<string, PodInfo>, counts: map<string, nat>, uids: map<string, string>, jobs: seq<Job>,
                         rounds: seq<Round>, trace: seq<Event>)

  const START := State(map[], map[], map[], [], [], [])

  datatype Step =
    | Handled(handling: Handling)
    | NodeSeen(event: NodeEvent, log: seq<Event>)
    | Polled(round: Round)
    | CleanedUp(job: Job, run: Run)

  function Next(c: Config, s: State, t: Step): State {
    match t
    case Handled(h) =>
      var spawned := h.Spawned(c, s.infos);
      State(h.Infos(c, s.infos), h.Counts(c, s.counts), h.UIDs(s.uids),
            if spawned.Some? then s.jobs + [spawned.value] else s.jobs, s.rounds, s.trace + h.Log(c, s.infos, s.counts))
    case NodeSeen(e, log) => s.(uids := Recorded(s.uids, e), trace := s.trace + log)
    case Polled(rd) => s.(infos := s.infos - Gone(rd.handOffs), rounds := s.rounds + [rd], trace := s.trace + rd.Log())
    case CleanedUp(job, r) =>
      s.(infos := if ForceDeleted(r.delete) then s.infos - {job.Key()} else s.infos, trace := s.trace + r.Flat())
  }

  /** (Names of the API server hold no slash.) */
  ghost predicate Possible(c: Config, s: State, t: Step) {
    match t
    case Handled(h) => h.Answered() && IsPodKey(h.key)
    case NodeSeen(_, log) => OnlyValidations(log)
    case Polled(rd) =>
      rd.alone && rd.record.past != [] && rd.record.past[0] == Tables(s.infos, s.uids) && MonitorRun(c, s.rounds + [rd])
    case CleanedUp(job, r) => job in s.jobs && CleanupRun(job, Stale(s.infos, job.pod), r)
  }

  function After(c: Config, steps: seq<Step>): State {
    if steps == [] then START else Next(c, After(c, steps[..|steps| - 1]), steps[|steps| - 1])
  }

  ghost predicate ControllerRun(c: Config, steps: seq<Step>) {
    forall i :: 0 <= i < |steps| ==> PossibleAt(c, steps, i)
  }

  ghost predicate PossibleAt(c: Config, steps: seq<Step>, i: nat)
    requires i < |steps|
  {
    Possible(c, After(c, steps[..i]), steps[i])
  }

  /** A run without its last step is a run. */
  lemma Shorter(c: Config, steps: seq<Step>)
    requires ControllerRun(c, steps) && steps != []
    ensures ControllerRun(c, steps[..|steps| - 1])
  {
    var before := steps[..|steps| - 1];
    forall i | 0 <= i < |before| ensures PossibleAt(c, before, i) { SamePrefix(c, steps, before, i); }
  }

  lemma SamePrefix(c: Config, steps: seq<Step>, before: seq<Step>, i: nat)
    requires i < |before| <= |steps| && before == steps[..|before|]
    ensures PossibleAt(c, before, i) <==> PossibleAt(c, steps, i)
  {
    assert before[..i] == steps[..i];
  }

  lemma LastIsPossible(c: Config, steps: seq<Step>)
    requires ControllerRun(c, steps) && steps != []
    ensures Possible(c, After(c, steps[..|steps| - 1]), steps[|steps| - 1])
  {
    assert PossibleAt(c, steps, |steps| - 1);
  }

  // ---------------------------------------------------------------- the process

  /** The program's state is what the steps so far make it. */
  ghost predicate Tracks(c: Config, steps: seq<Step>, infos: map<string, PodInfo>, counts: map<string, nat>,
                         uids: map<string, string>, jobs: seq<Job>, trace: seq<Event>, round: nat, history: History)
  {
    var s := After(c, steps);
    && ControllerRun(c, steps)
    && s.infos == infos && s.counts == counts && s.uids == uids && s.jobs == jobs && s.trace == trace
    && |s.rounds| == round && HistoryBefore(s.rounds, |s.rounds|) == history
    && KeyedInfos(infos)
  }

  lemma OneMore(c: Config, steps: seq<Step>, t: Step)
    requires ControllerRun(c, steps) && Possible(c, After(c, steps), t)
    ensures ControllerRun(c, steps + [t]) && After(c, steps + [t]) == Next(c, After(c, steps), t)
  {
    var more := steps + [t];
    assert more[..|steps|] == steps;
    forall i | 0 <= i < |more| ensures PossibleAt(c, more, i) {
      if i < |steps| { SamePrefix(c, more, steps, i); }
    }
  }

  method HandlePod(cm: PodMonitor, cache: ConnectivityCache, world: World, kind: WatchType, namespace: string, name: string,
                   uid: string, jobs: seq<Job>, ghost before: seq<Step>)
    returns (jobs': seq<Job>, ghost steps: seq<Step>)
    requires IsPodKey(PodKey(namespace, name))
    requires Tracks(cm.config, before, cm.infos, cm.crashCounts, cm.nodeUIDs, jobs, world.trace, cache.round, cache.history)
    modifies cm, world`trace
    ensures Tracks(cm.config, steps, cm.infos, cm.crashCounts, cm.nodeUIDs, jobs', world.trace, cache.round, cache.history)
  {
    var _, spawned, h := ControllerModePodHandler(cm, world, kind, namespace, name, uid);
    jobs' := if spawned.Some? then jobs + [spawned.value] else jobs;
    steps := before + [Handled(h)];
    OneMore(cm.config, before, Handled(h));
    RecordsStayKeyed(cm.config, h, old(cm.infos));
  }

  method HandleNode(cm: PodMonitor, cache: ConnectivityCache, world: World, kind: WatchType, node: Node, jobs: seq<Job>,
                    ghost before: seq<Step>)
    returns (ghost steps: seq<Step>)
    requires Tracks(cm.config, before, cm.infos, cm.crashCounts, cm.nodeUIDs, jobs, world.trace, cache.round, cache.history)
    modifies cm`nodeUIDs, world`trace
    ensures Tracks(cm.config, steps, cm.infos, cm.crashCounts, cm.nodeUIDs, jobs, world.trace, cache.round, cache.history)
  {
    ghost var log := NodeMonitorHandler(cm, world, kind, node);
    ghost var t := NodeSeen(NodeEvent(kind, node.name, node.uid), log);
    steps := before + [t];
    OneMore(cm.config, before, t);
  }

  method Poll(cm: PodMonitor, cache: ConnectivityCache, world: World, jobs: seq<Job>, ghost before: seq<Step>)
    returns (ghost steps: seq<Step>)
    requires cache.Valid()
    requires Tracks(cm.config, before, cm.infos, cm.crashCounts, cm.nodeUIDs, jobs, world.trace, cache.round, cache.history)
    modifies cm`infos, cm`nodeUIDs, cache, world`trace
    ensures cache.Valid()
    ensures Tracks(cm.config, steps, cm.infos, cm.crashCounts, cm.nodeUIDs, jobs, world.trace, cache.round, cache.history)
  {
    RoundsAreMonitored(cm.config, before);
    ghost var rd := PollNext(cm, cache, world, true, Beginning(Tables(cm.infos, cm.nodeUIDs)), After(cm.config, before).rounds);
    steps := before + [Polled(rd)];
    OneMore(cm.config, before, Polled(rd));
  }

  /** Runs one of the clean-ups that were started. */
  method CleanUp(cm: PodMonitor, cache: ConnectivityCache, world: World, jobs: seq<Job>, job: Job, ghost before: seq<Step>)
    returns (ghost steps: seq<Step>)
    requires job in jobs && job.config == cm.config
    requires Tracks(cm.config, before, cm.infos, cm.crashCounts, cm.nodeUIDs, jobs, world.trace, cache.round, cache.history)
    modifies cm`infos, world`trace
    ensures Tracks(cm.config, steps, cm.infos, cm.crashCounts, cm.nodeUIDs, jobs, world.trace, cache.round, cache.history)
  {
    var _, r := ControllerCleanupPod(cm, world, job);
    steps := before + [CleanedUp(job, r)];
    OneMore(cm.config, before, CleanedUp(job, r));
  }

  /** Any number of turns; each is some event, a poll round, or the run of a clean-up that was started before. */
  method Controller(cm: PodMonitor, cache: ConnectivityCache, world: World, turns: nat) returns (ghost steps: seq<Step>)
    requires cm.infos == map[] && cm.crashCounts == map[] && cm.nodeUIDs == map[] && world.trace == []
    requires cache.Valid() && cache.round == 0 && cache.history == map[]
    modifies cm, cache, world`trace
    ensures ControllerRun(cm.config, steps)
    ensures var s := After(cm.config, steps);
            cm.infos == s.infos && cm.crashCounts == s.counts && cm.nodeUIDs == s.uids && world.trace == s.trace
  {
    steps := [];
    var jobs: seq<Job> := [];
    for i := 0 to turns
      invariant cache.Valid()
      invariant Tracks(cm.config, steps, cm.infos, cm.crashCounts, cm.nodeUIDs, jobs, world.trace, cache.round, cache.history)
    {
      var choice: int, kind: WatchType, namespace: string, name: string, uid: string, node: Node, j: int := *, *, *, *, *, *, *;
      if choice == 0 && IsPodKey(PodKey(namespace, name)) {
        jobs, steps := HandlePod(cm, cache, world, kind, namespace, name, uid, jobs, steps);
      } else if choice == 1 {
        steps := HandleNode(cm, cache, world, kind, node, jobs, steps);
      } else if choice == 2 {
        steps := Poll(cm, cache, world, jobs, steps);
      } else if 0 <= j < |jobs| && jobs[j].config == cm.config {
        steps := CleanUp(cm, cache, world, jobs, jobs[j], steps);
      }
    }
  }

  // ---------------------------------------------------------------- the tables

  /** Every record stays under its own key, as the rounds and the clean-ups need it. */
  lemma {:induction false} RecordsAreKeyed(c: Config, steps: seq<Step>)
    requires ControllerRun(c, steps)
    ensures KeyedInfos(After(c, steps).infos)
  {
    if steps != [] {
      var before, last := steps[..|steps| - 1], steps[|steps| - 1];
      Shorter(c, steps);
      RecordsAreKeyed(c, before);
      LastIsPossible(c, steps);
      StepKeepsKeyed(c, After(c, before), last);
    }
  }

  lemma StepKeepsKeyed(c: Config, s: State, t: Step)
    requires KeyedInfos(s.infos) && Possible(c, s, t)
    ensures KeyedInfos(Next(c, s, t).infos)
  {
    if t.Handled? { RecordsStayKeyed(c, t.handling, s.infos); }
  }

  /** The record is what reading its pod and its node answered. */
  ghost predicate WasRead(trace: seq<Event>, key: string, info: PodInfo) {
    && NodeRead(info.node.name, Some(info.node)) in trace && info.arrayIDs == ["default"]
    && exists pod: Pod :: PodRead(key, Some(pod)) in trace && pod.namespace + "/" + pod.name == key && pod.uid == info.podUID &&
                          pod.nodeName == info.node.name && pod.affinity == info.affinity
  }

  /** In every run each record is made of answers in the trace. */
  lemma {:induction false} RecordsWereRead(c: Config, steps: seq<Step>, key: string)
    requires ControllerRun(c, steps) && key in After(c, steps).infos
    ensures WasRead(After(c, steps).trace, key, After(c, steps).infos[key])
  {
    var before, last := steps[..|steps| - 1], steps[|steps| - 1];
    var s := After(c, before);
    assert steps == before + [last];
    LastIsPossible(c, steps);
    AddsItsLog(c, s, last);
    if last.Handled? && key == last.handling.key && last.handling.Stores(c) {
      StoredAsRead(c, last.handling, s.infos, s.counts);
      WasReadStays(s.trace, LogOfStep(c, s, last), key, last.handling.Info());
    } else {
      Shorter(c, steps);
      StillOnRecord(c, s, last, key);
      RecordsWereRead(c, before, key);
      WasReadStays(s.trace, LogOfStep(c, s, last), key, s.infos[key]);
    }
  }

  lemma StillOnRecord(c: Config, s: State, t: Step, key: string)
    requires key in Next(c, s, t).infos && !(t.Handled? && key == t.handling.key && t.handling.Stores(c))
    ensures key in s.infos && Next(c, s, t).infos[key] == s.infos[key]
  {
  }

  lemma StoredAsRead(c: Config, h: Handling, infos: map<string, PodInfo>, counts: map<string, nat>)
    requires h.Answered() && h.Stores(c)
    ensures WasRead(h.Log(c, infos, counts), h.key, h.Info())
  {
    var log := h.Log(c, infos, counts);
    assert log == h.ReadLog() + h.RecordLog(c) + h.ActLog(c, infos, counts);
    assert log[0] == PodRead(h.key, Some(h.pod.value)) && log[1] == NodeRead(h.pod.value.nodeName, Some(h.node.value));
    assert log[0] in log && log[1] in log;
  }

  lemma WasReadStays(trace: seq<Event>, more: seq<Event>, key: string, info: PodInfo)
    requires WasRead(trace, key, info) || WasRead(more, key, info)
    ensures WasRead(trace + more, key, info)
  {
    var pod: Pod :| (PodRead(key, Some(pod)) in trace || PodRead(key, Some(pod)) in more) && pod.namespace + "/" + pod.name == key &&
                    pod.uid == info.podUID && pod.nodeName == info.node.name && pod.affinity == info.affinity;
    assert PodRead(key, Some(pod)) in trace + more;
  }

  /** The announcements of nodes, by a node event or by the pod handler's reading one, and the deletions. */
  function NodeHistory(steps: seq<Step>): seq<NodeEvent> {
    if steps == [] then []
    else
      var last := steps[|steps| - 1];
      NodeHistory(steps[..|steps| - 1]) +
      match last
      case NodeSeen(e, _) => [e]
      case Handled(h) => if h.Observed() then [NodeEvent(Modified, h.pod.value.nodeName, h.node.value.uid)] else []
      case _ => []
  }

  lemma RecordedAlike(t1: map<string, string>, t2: map<string, string>, e: NodeEvent)
    requires forall name :: UidOf(t1, name) == UidOf(t2, name)
    ensures forall name :: UidOf(Recorded(t1, e), name) == UidOf(Recorded(t2, e), name)
  {
    forall name ensures UidOf(Recorded(t1, e), name) == UidOf(Recorded(t2, e), name) {
      assert UidOf(t1, name) == UidOf(t2, name) && UidOf(t1, e.name) == UidOf(t2, e.name);
    }
  }

  /** The node UID table is what node events and the pod handler's reads together make of it; TableFollowsHistory says
      what that is for each node. */
  lemma {:induction false} UIDsFollowHistory(c: Config, steps: seq<Step>)
    ensures forall name :: UidOf(After(c, steps).uids, name) == UidOf(TableAfter(NodeHistory(steps)), name)
  {
    if steps != [] {
      var before, last := steps[..|steps| - 1], steps[|steps| - 1];
      UIDsFollowHistory(c, before);
      var uids, history := After(c, before).uids, NodeHistory(before);
      match last {
        case NodeSeen(e, _) =>
          RecordedAlike(uids, TableAfter(history), e);
          assert (history + [e])[..|history|] == history;
        case Handled(h) =>
          if h.Observed() {
            var e := NodeEvent(Modified, h.pod.value.nodeName, h.node.value.uid);
            forall name ensures UidOf(h.UIDs(uids), name) == UidOf(Recorded(uids, e), name) { ObservingIsANodeEvent(h, uids, name); }
            RecordedAlike(uids, TableAfter(history), e);
            assert (history + [e])[..|history|] == history;
          } else {
            assert history + [] == history;
          }
        case _ => assert history + [] == history;
      }
    }
  }

  // ---------------------------------------------------------------- crash loops

  /** A poll round restarts no pod gracefully and ends no crash loop. */
  lemma RoundsAreQuiet(c: Config, rounds: seq<Round>, rd: Round)
    requires MonitorRun(c, rounds + [rd])
    ensures Quiet(rd.Log())
  {
    var run := rounds + [rd];
    RoundHands(c, run, |rounds|);
    OnlyQuestionsAndTaints(c, run, |rounds|);
    LogsAreQuiet(c, rd.ToClean(), rd.handOffs);
    QuietParts(TurnLogs(rd.turns), rd.tainting, Logs(rd.handOffs));
  }

  lemma QuietParts(sampling: seq<Event>, tainting: seq<Event>, rest: seq<Event>)
    requires OnlyValidations(sampling) && (forall e :: e in tainting ==> e.Did? && e.call.TaintNode?) && Quiet(rest)
    ensures Quiet(sampling + tainting + rest)
  {
  }

  lemma {:induction false} LogsAreQuiet(c: Config, podKeys: seq<string>, handOffs: seq<HandOff>)
    requires HandedOver(c, podKeys, handOffs)
    ensures Quiet(Logs(handOffs))
  {
    if handOffs != [] {
      var last := handOffs[|handOffs| - 1];
      LogsAreQuiet(c, podKeys, handOffs[..|handOffs| - 1]);
      if last.Matches() { CleanupsAreQuiet(last.Task(c), last.stale, last.run); }
    }
  }

  /** In every run, the graceful deletes of a pod since it was last recorded ready or reported deleted are counted
      exactly, and there are at most 5 of them. */
  lemma {:induction false} CrashLoopsAreBounded(c: Config, steps: seq<Step>, key: string)
    requires ControllerRun(c, steps)
    ensures Counted(After(c, steps).counts, After(c, steps).trace, key)
  {
    if steps != [] {
      var before, last := steps[..|steps| - 1], steps[|steps| - 1];
      Shorter(c, steps);
      CrashLoopsAreBounded(c, before, key);
      LastIsPossible(c, steps);
      StepIsCounted(c, After(c, before), last, key);
    }
  }

  lemma StepIsCounted(c: Config, s: State, t: Step, key: string)
    requires Possible(c, s, t) && Counted(s.counts, s.trace, key)
    ensures Counted(Next(c, s, t).counts, Next(c, s, t).trace, key)
  {
    match t {
      case Handled(h) => HandlingIsCounted(c, h, s.infos, s.counts, s.trace, key);
      case NodeSeen(_, log) => QuietAdds(s.trace, log, key);
      case Polled(rd) =>
        RoundsAreQuiet(c, s.rounds, rd);
        QuietAdds(s.trace, rd.Log(), key);
      case CleanedUp(job, r) =>
        CleanupsAreQuiet(job, Stale(s.infos, job.pod), r);
        QuietAdds(s.trace, r.Flat(), key);
    }
  }

  // ---------------------------------------------------------------- every delete has a cause

  lemma JustifiedStays(c: Config, trace: seq<Event>, more: seq<Event>, job: Job)
    requires JobJustified(c, trace, job) || JobJustified(c, more, job)
    ensures JobJustified(c, trace + more, job)
  {
    if JobJustified(c, trace, job) {
      var node: Node :| NodeRead(job.pod.nodeName, Some(node)) in trace && node.name == job.pod.nodeName && FlagsSay(c, job, node);
      assert NodeRead(job.pod.nodeName, Some(node)) in trace + more;
    } else {
      var node: Node :| NodeRead(job.pod.nodeName, Some(node)) in more && node.name == job.pod.nodeName && FlagsSay(c, job, node);
      assert NodeRead(job.pod.nodeName, Some(node)) in trace + more;
    }
  }

  /** What a step adds to the trace. */
  function LogOfStep(c: Config, s: State, t: Step): seq<Event> {
    match t
    case Handled(h) => h.Log(c, s.infos, s.counts)
    case NodeSeen(_, log) => log
    case Polled(rd) => rd.Log()
    case CleanedUp(_, r) => r.Flat()
  }

  /** In every run an event starts one clean-up, of the pod instance it read, exactly if that pod needs one. */
  lemma CleanupsAreStarted(c: Config, steps: seq<Step>, i: nat)
    requires ControllerRun(c, steps) && i < |steps| && steps[i].Handled?
    ensures var s, s' := After(c, steps[..i]), After(c, steps[..i + 1]);
            && (NeedsCleanup(c, steps[i].handling) ==> |s'.jobs| == |s.jobs| + 1 && s'.jobs[|s.jobs|].pod == steps[i].handling.pod.value)
            && (!NeedsCleanup(c, steps[i].handling) ==> s'.jobs == s.jobs)
  {
    var s := After(c, steps[..i]);
    assert steps[..i + 1][..i] == steps[..i];
    HandlingMeaning(c, steps[i].handling, s.counts);
  }

  /** A clean-up is of a node that was read, now or when the pod was recorded. */
  lemma {:induction false} JobsAreOnNodesRead(c: Config, steps: seq<Step>, job: Job)
    requires ControllerRun(c, steps) && job in After(c, steps).jobs
    ensures NodeRead(job.node.name, Some(job.node)) in After(c, steps).trace
  {
    var before, last := steps[..|steps| - 1], steps[|steps| - 1];
    var s := After(c, before);
    assert steps == before + [last];
    LastIsPossible(c, steps);
    Shorter(c, steps);
    AddsItsLog(c, s, last);
    if job in s.jobs {
      JobsAreOnNodesRead(c, before, job);
    } else {
      var h := last.handling;
      if h.key in s.infos { RecordsWereRead(c, before, h.key); }
      NewJobsNode(c, h, s.infos, s.counts);
    }
  }

  lemma NewJobsNode(c: Config, h: Handling, infos: map<string, PodInfo>, counts: map<string, nat>)
    requires h.Answered() && h.Spawns(c)
    ensures var node := h.Spawned(c, infos).value.node;
            NodeRead(node.name, Some(node)) in h.Log(c, infos, counts) || (h.key in infos && node == infos[h.key].node)
  {
    var log := h.Log(c, infos, counts);
    assert log == h.ReadLog() + h.RecordLog(c) + h.ActLog(c, infos, counts);
    assert log[1] == NodeRead(h.pod.value.nodeName, Some(h.node.value)) && log[1] in log;
  }

  /** Every clean-up that was started was started for a pod read as not ready on a node read with a taint. */
  lemma {:induction false} JobsAreJustified(c: Config, steps: seq<Step>, job: Job)
    requires ControllerRun(c, steps) && job in After(c, steps).jobs
    ensures JobJustified(c, After(c, steps).trace, job)
  {
    var before, last := steps[..|steps| - 1], steps[|steps| - 1];
    if job in After(c, before).jobs {
      Shorter(c, steps);
      JobsAreJustified(c, before, job);
    } else {
      LastIsPossible(c, steps);
    }
    StepJustifies(c, After(c, before), last, job);
  }

  lemma StepJustifies(c: Config, s: State, t: Step, job: Job)
    requires job in s.jobs ==> JobJustified(c, s.trace, job)
    requires job !in s.jobs && job in Next(c, s, t).jobs ==> t.Handled? && t.handling.Answered()
    ensures job in Next(c, s, t).jobs ==> JobJustified(c, Next(c, s, t).trace, job)
  {
    if job in Next(c, s, t).jobs {
      if job !in s.jobs { SpawnIsJustified(c, t.handling, s.infos, s.counts); }
      JustifiedStays(c, s.trace, LogOfStep(c, s, t), job);
    }
  }

  lemma {:induction false} RoundsAreMonitored(c: Config, steps: seq<Step>)
    requires ControllerRun(c, steps)
    ensures MonitorRun(c, After(c, steps).rounds)
  {
    if steps != [] {
      Shorter(c, steps);
      RoundsAreMonitored(c, steps[..|steps| - 1]);
      LastIsPossible(c, steps);
    }
  }

  /** The step t, taken in state s, asks for a delete at position q of its log, and this is why. */
  ghost predicate CausedBy(c: Config, s: State, t: Step, q: nat)
    requires q < |LogOfStep(c, s, t)|
  {
    var e := LogOfStep(c, s, t)[q];
    match t
    case Handled(h) => MayRestart(c, h, s.counts) && IsDelete(e) && e.call == DeletePod(h.key, h.pod.value.uid, false)
    case Polled(rd) => exists i: nat :: DeletedBy(c, s, rd, i, q)
    case CleanedUp(job, r) =>
      q == |r.Flat()| - 1 && r.delete == [e] && IsDelete(e) && DeleteJustified(job, r.PVs(), r.Flat()) &&
      JobJustified(c, s.trace, job)
    case NodeSeen(_, _) => false
  }

  /** Position q of the round's log is the delete that hand-off i ends with, and it is safe. */
  ghost predicate DeletedBy(c: Config, s: State, rd: Round, i: nat, q: nat) {
    && i < |rd.handOffs| && q < |rd.Log()| && rd.handOffs[i].run.delete == [rd.Log()[q]]
    && q == |TurnLogs(rd.turns) + rd.tainting| + |Logs(rd.handOffs[..i + 1])| - 1
    && SafeDelete(c, s.rounds + [rd], |s.rounds|, rd.handOffs[i])
  }

  /** Position p of the trace was written by step i, and this is why. */
  ghost predicate CausedAt(c: Config, steps: seq<Step>, i: nat, p: nat) {
    && i < |steps|
    && var s := After(c, steps[..i]);
       && |s.trace| <= p < |s.trace| + |LogOfStep(c, s, steps[i])|
       && CausedBy(c, s, steps[i], p - |s.trace|)
  }

  /** Every position of the controller's trace that holds a delete of a pod was written by a step that restarts a pod in
      a crash loop, or by the monitor on a safe force delete, or at the end of a clean-up which was started for a pod read
      as not ready on a node read with a taint, and which did all that a delete rests on. */
  lemma {:induction false} DeletesHaveACause(c: Config, steps: seq<Step>, p: nat) returns (i: nat)
    requires ControllerRun(c, steps) && p < |After(c, steps).trace| && IsDelete(After(c, steps).trace[p])
    ensures CausedAt(c, steps, i, p)
  {
    var before, last := steps[..|steps| - 1], steps[|steps| - 1];
    var s := After(c, before);
    assert steps == before + [last];
    AddsItsLog(c, s, last);
    if p < |s.trace| {
      Shorter(c, steps);
      i := DeletesHaveACause(c, before, p);
      CauseStays(c, before, last, i, p);
    } else {
      Shorter(c, steps);
      LastIsPossible(c, steps);
      StepCauses(c, before, last, p - |s.trace|);
      i := |before|;
      assert steps[..i] == before;
    }
  }

  lemma AddsItsLog(c: Config, s: State, t: Step)
    ensures Next(c, s, t).trace == s.trace + LogOfStep(c, s, t)
  {
  }

  lemma CauseStays(c: Config, before: seq<Step>, last: Step, i: nat, p: nat)
    requires CausedAt(c, before, i, p)
    ensures CausedAt(c, before + [last], i, p)
  {
    assert before[..i] == (before + [last])[..i] && (before + [last])[i] == before[i];
  }

  lemma StepCauses(c: Config, before: seq<Step>, t: Step, q: nat)
    requires ControllerRun(c, before) && Possible(c, After(c, before), t)
    requires q < |LogOfStep(c, After(c, before), t)| && IsDelete(LogOfStep(c, After(c, before), t)[q])
    ensures CausedBy(c, After(c, before), t, q)
  {
    var s := After(c, before);
    match t {
      case Handled(h) => HandlerDeletes(c, h, s.infos, s.counts, q);
      case NodeSeen(_, log) => ValidationsDeleteNothing(log, q);
      case Polled(rd) => RoundCauses(c, s, rd, q);
      case CleanedUp(job, r) =>
        DeletesAreLast(job, Stale(s.infos, job.pod), r, q);
        DeleteIsJustified(job, Stale(s.infos, job.pod), r);
        JobsAreJustified(c, before, job);
    }
  }

  lemma ValidationsDeleteNothing(log: seq<Event>, q: nat)
    requires OnlyValidations(log) && q < |log|
    ensures !IsDelete(log[q])
  {
    assert log[q] in log;
  }

  lemma HandlerDeletes(c: Config, h: Handling, infos: map<string, PodInfo>, counts: map<string, nat>, q: nat)
    requires h.Answered() && q < |h.Log(c, infos, counts)| && IsDelete(h.Log(c, infos, counts)[q])
    ensures MayRestart(c, h, counts) && h.Log(c, infos, counts)[q].call == DeletePod(h.key, h.pod.value.uid, false)
    ensures q == |h.Log(c, infos, counts)| - 1
  {
    HandlingMeaning(c, h, counts);
  }

  lemma RoundCauses(c: Config, s: State, rd: Round, q: nat)
    requires MonitorRun(c, s.rounds + [rd]) && q < |rd.Log()| && IsDelete(rd.Log()[q])
    ensures exists i: nat :: DeletedBy(c, s, rd, i, q)
  {
    var i := RoundDeleteEnds(c, s.rounds + [rd], |s.rounds|, q);
    HandOffIsSafe(c, s.rounds + [rd], |s.rounds|, i);
    assert DeletedBy(c, s, rd, i, q);
  }

  // ---------------------------------------------------------------- restarts of one instance

  /** In every run: the counter is the number of restarts since the pod was last recorded ready, unless a Deleted event
      came upon a pod that had been restarted since, and then it is less. So an instance is restarted at most
      5 times since it was ready, unless there was such an event. */
  lemma CounterFallsShortIff(c: Config, steps: seq<Step>, key: string, uid: string)
    requires ControllerRun(c, steps)
    ensures var s := After(c, steps);
            && CountOf(s.counts, key) <= SinceReady(s.trace, key)
            && (CountOf(s.counts, key) < SinceReady(s.trace, key) <==> Forgets(s.trace, key))
            && (!Forgets(s.trace, key) ==> RestartsOf(s.trace, key, uid) <= 5)
  {
    CrashLoopsAreBounded(c, steps, key);
    CountedShortIff(After(c, steps).trace, key);
    InstanceWithinPod(After(c, steps).trace, key, uid);
  }

  const LOOP_CONFIG := Config(false, true, false, 1, 3, "podmon", "podmon-driver")
  const LOOP_KEY := PodKey("ns", "p")
  const LOOPING := Pod("ns", "p", "new", "n1", "", Running, [], [ContainerStatus("c", Some(CRASH_LOOP))], map[])
  const LOOP_NODE := Node("n1", "u1", "csi1", [])
  const RESTART := Handling(Modified, LOOP_KEY, "new", Some(LOOPING), Some(LOOP_NODE), Ok([]), 0, None)
  const LATE_DELETE := Handling(Deleted, LOOP_KEY, "old", None, None, Ok([]), 0, None)

  lemma RestartIsPossible(s: State)
    ensures Possible(LOOP_CONFIG, s, Handled(RESTART)) && !RESTART.Ready() && RESTART.Looks() && InCrashLoop(LOOPING)
  {
    SplitUndoesJoin("ns", "p");
    assert LOOPING.containers[0].waitingReason == Some(CRASH_LOOP);
  }

  lemma OneRestart(s: State)
    requires CountOf(s.counts, LOOP_KEY) < MAX_CRASH_LOOP_RETRY
    ensures var s' := Next(LOOP_CONFIG, s, Handled(RESTART));
            && CountOf(s'.counts, LOOP_KEY) == CountOf(s.counts, LOOP_KEY) + 1
            && RestartsOf(s'.trace, LOOP_KEY, "new") == RestartsOf(s.trace, LOOP_KEY, "new") + 1
  {
    RestartIsPossible(s);
    var t := s.trace;
    var a, b, pvs := PodRead(LOOP_KEY, Some(LOOPING)), NodeRead("n1", Some(LOOP_NODE)), PVsRead(LOOP_KEY, Ok([]), 0);
    var d := Did(DeletePod(LOOP_KEY, "new", false), None);
    assert RESTART.Restarts(LOOP_CONFIG, s.counts);
    assert RESTART.Log(LOOP_CONFIG, s.infos, s.counts) == [a, b] + [pvs] + [d] == [a] + [b] + [pvs] + [d];
    assert t + ([a] + [b] + [pvs] + [d]) == t + [a] + [b] + [pvs] + [d];
    OneMoreOf(t, a, LOOP_KEY, "new");
    OneMoreOf(t + [a], b, LOOP_KEY, "new");
    OneMoreOf(t + [a] + [b], pvs, LOOP_KEY, "new");
    OneMoreOf(t + [a] + [b] + [pvs], d, LOOP_KEY, "new");
  }

  lemma OneMoreOf(trace: seq<Event>, e: Event, key: string, uid: string)
    ensures RestartsOf(trace + [e], key, uid) ==
            if e == ReadyStored(key) then 0 else RestartsOf(trace, key, uid) + if IsRestart(e, key) && e.call.uid == uid then 1 else 0
  {
    assert (trace + [e])[..|trace|] == trace;
  }

  /** The same event, n times. */
  function Loops(n: nat): seq<Step> {
    if n == 0 then [] else Loops(n - 1) + [Handled(RESTART)]
  }

  /** After the steps the pod's counter stands at count, and its instance has been restarted so often. */
  ghost predicate Looped(steps: seq<Step>, count: nat, restarts: nat) {
    && ControllerRun(LOOP_CONFIG, steps)
    && CountOf(After(LOOP_CONFIG, steps).counts, LOOP_KEY) == count
    && RestartsOf(After(LOOP_CONFIG, steps).trace, LOOP_KEY, "new") == restarts
  }

  lemma {:induction false} LoopsRun(n: nat, steps: seq<Step>)
    requires n <= MAX_CRASH_LOOP_RETRY && steps == Loops(n)
    ensures Looped(steps, n, n)
  {
    if n == 0 {
      NotLooped(steps);
    } else {
      LoopsRun(n - 1, Loops(n - 1));
      LoopsOn(Loops(n - 1), steps, n - 1, n - 1);
    }
  }

  lemma NotLooped(steps: seq<Step>)
    requires steps == []
    ensures Looped(steps, 0, 0)
  {
  }

  lemma LoopsOn(steps: seq<Step>, more: seq<Step>, count: nat, restarts: nat)
    requires Looped(steps, count, restarts) && count < MAX_CRASH_LOOP_RETRY && more == steps + [Handled(RESTART)]
    ensures Looped(more, count + 1, restarts + 1)
  {
    RestartIsPossible(After(LOOP_CONFIG, steps));
    OneMore(LOOP_CONFIG, steps, Handled(RESTART));
    OneRestart(After(LOOP_CONFIG, steps));
  }

  lemma DeleteOn(steps: seq<Step>, more: seq<Step>, count: nat, restarts: nat)
    requires Looped(steps, count, restarts) && more == steps + [Handled(LATE_DELETE)]
    ensures Looped(more, 0, restarts)
  {
    SplitUndoesJoin("ns", "p");
    OneMore(LOOP_CONFIG, steps, Handled(LATE_DELETE));
    OneMoreOf(After(LOOP_CONFIG, steps).trace, DeleteObserved(LOOP_KEY, "old"), LOOP_KEY, "new");
  }

  /** An instance that was never ready is restarted once more than the limit: after five restarts the Deleted event of an
      older instance clears the counter. */
  lemma LateDeleteAllowsMoreRestarts()
    ensures var steps := Loops(5) + [Handled(LATE_DELETE)] + [Handled(RESTART)];
            && ControllerRun(LOOP_CONFIG, steps)
            && RestartsOf(After(LOOP_CONFIG, steps).trace, LOOP_KEY, "new") == 6
  {
    var five := Loops(5);
    var deleted := five + [Handled(LATE_DELETE)];
    LoopsRun(5, five);
    DeleteOn(five, deleted, 5, 5);
    LoopsOn(deleted, deleted + [Handled(RESTART)], 0, 5);
  }
}
