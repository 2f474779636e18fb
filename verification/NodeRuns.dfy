/** The node as one serial process: the API monitor's turns, the sweeps they start, and watch events in between. */
module NodeRuns {
  import opened Kube
  import opened World
  import Monitor
  import opened NodeCleanup
  import opened NodeSweep
  import opened NodeSafety
  import opened NodeWatch
  import opened ApiMonitor

  /** turns and steps are what the API monitor and the tracked pods went through; tables[i] is what was tracked before
      step i. */
  datatype State = State(tracked: Tracked, turns: seq<Turn>, steps: seq<Step>, tables: seq<Tracked>, trace: seq<Event>)

  const BEGIN := State(map[], [], [], [map[]], [])

  datatype Moment =
    | Seen(watch: Watch)
    | Idle(turn: Turn)
    | Sweeping(turn: Turn, scene: Scene, sweep: Sweep)

  function Next(c: NodeConfig, s: State, m: Moment): State {
    match m
    case Seen(w) =>
      if !w.Answered() then s
      else s.(tracked := w.After(c, s.tracked), steps := s.steps + [Watched(w)],
              tables := s.tables + [w.After(c, s.tracked)], trace := s.trace + w.Log(c))
    case Idle(t) => s.(turns := s.turns + [t])
    case Sweeping(t, scene, sw) =>
      var kept := Kept(s.tracked, sw.cleanings);
      State(kept, s.turns + [t], s.steps + [Swept(scene, c.nodeName, sw)], s.tables + [kept], s.trace + sw.Log())
  }

  /** (Names of the API server hold no slash.) */
  ghost predicate Possible(c: NodeConfig, delay: int, s: State, m: Moment) {
    match m
    case Seen(w) => w.Answered() && IsPodKey(KeyOf(w.pod))
    case Idle(t) => !Sweeps(ApiMonitor.After(s.turns, delay), t, delay)
    case Sweeping(t, scene, sw) =>
      && Sweeps(ApiMonitor.After(s.turns, delay), t, delay)
      && SweepRun(c, scene, c.nodeName, s.tracked, sw)
      && (t.sweep <==> Untainted(c, c.nodeName, sw))
  }

  function StateAfter(c: NodeConfig, ms: seq<Moment>): State {
    if ms == [] then BEGIN else Next(c, StateAfter(c, ms[..|ms| - 1]), ms[|ms| - 1])
  }

  ghost predicate NodeRun(c: NodeConfig, delay: int, ms: seq<Moment>) {
    forall i :: 0 <= i < |ms| ==> PossibleAt(c, delay, ms, i)
  }

  ghost predicate PossibleAt(c: NodeConfig, delay: int, ms: seq<Moment>, i: nat)
    requires i < |ms|
  {
    Possible(c, delay, StateAfter(c, ms[..i]), ms[i])
  }

  lemma SamePrefix(c: NodeConfig, delay: int, ms: seq<Moment>, before: seq<Moment>, i: nat)
    requires i < |before| <= |ms| && before == ms[..|before|]
    ensures PossibleAt(c, delay, before, i) <==> PossibleAt(c, delay, ms, i)
  {
    assert before[..i] == ms[..i];
  }

  lemma Shorter(c: NodeConfig, delay: int, ms: seq<Moment>)
    requires NodeRun(c, delay, ms) && ms != []
    ensures NodeRun(c, delay, ms[..|ms| - 1])
  {
    var before := ms[..|ms| - 1];
    forall i | 0 <= i < |before| ensures PossibleAt(c, delay, before, i) { SamePrefix(c, delay, ms, before, i); }
  }

  lemma LastIsPossible(c: NodeConfig, delay: int, ms: seq<Moment>)
    requires NodeRun(c, delay, ms) && ms != []
    ensures Possible(c, delay, StateAfter(c, ms[..|ms| - 1]), ms[|ms| - 1])
  {
    assert PossibleAt(c, delay, ms, |ms| - 1);
  }

  lemma OneMore(c: NodeConfig, delay: int, ms: seq<Moment>, m: Moment)
    requires NodeRun(c, delay, ms) && Possible(c, delay, StateAfter(c, ms), m)
    ensures NodeRun(c, delay, ms + [m]) && StateAfter(c, ms + [m]) == Next(c, StateAfter(c, ms), m)
  {
    var more := ms + [m];
    assert more[..|ms|] == ms;
    forall i | 0 <= i < |more| ensures PossibleAt(c, delay, more, i) {
      if i < |ms| { SamePrefix(c, delay, more, ms, i); }
    }
  }

  // ---------------------------------------------------------------- the process

  /** The program's state is what the moments so far make it. */
  ghost predicate Tracks(c: NodeConfig, delay: int, ms: seq<Moment>, tracked: Tracked, status: Status, trace: seq<Event>) {
    var s := StateAfter(c, ms);
    && NodeRun(c, delay, ms)
    && s.tracked == tracked && s.trace == trace && ApiMonitor.After(s.turns, delay) == status
    && Keyed(tracked)
  }

  lemma EventStaysKeyed(c: NodeConfig, w: Watch, tracked: Tracked)
    requires Keyed(tracked) && w.Answered() && IsPodKey(KeyOf(w.pod))
    ensures Keyed(w.After(c, tracked))
  {
  }

  lemma {:induction false} KeptStaysKeyed(tracked: Tracked, cleanings: seq<Cleaning>)
    requires Keyed(tracked)
    ensures Keyed(Kept(tracked, cleanings))
  {
    if cleanings != [] { KeptStaysKeyed(tracked, cleanings[..|cleanings| - 1]); }
  }

  method HandleEvent(pm: NodePodMonitor, world: World, kind: Monitor.WatchType, pod: Pod, volumes: Listing, devices: Listing,
                     delay: int, ghost count: nat, ghost before: seq<Moment>)
    returns (ghost ms: seq<Moment>)
    requires IsPodKey(KeyOf(pod))
    requires Tracks(pm.config, delay, before, pm.podKeyMap, Status(pm.apiConnected, count), world.trace)
    modifies pm`podKeyMap, world`trace
    ensures Tracks(pm.config, delay, ms, pm.podKeyMap, Status(pm.apiConnected, count), world.trace)
  {
    var _, w := NodeModePodHandler(pm, world, kind, pod, volumes, devices);
    EventStaysKeyed(pm.config, w, old(pm.podKeyMap));
    OneMore(pm.config, delay, before, Seen(w));
    ms := before + [Seen(w)];
  }

  method HandleTurn(pm: NodePodMonitor, world: World, node: Option<Node>, t: Turn, scene: Scene, delay: int, count: nat, ghost before: seq<Moment>)
    returns (taintCount: nat, ghost ms: seq<Moment>)
    requires Tracks(pm.config, delay, before, pm.podKeyMap, Status(pm.apiConnected, count), world.trace)
    modifies pm, world`trace
    ensures Tracks(pm.config, delay, ms, pm.podKeyMap, Status(pm.apiConnected, taintCount), world.trace)
  {
    ghost var turn: Turn, sweep: Option<Sweep>, reading: seq<bool>;
    taintCount, turn, sweep, reading := TakeTurn(pm, world, node, t, scene, delay, count);
    ghost var m := if sweep.Some? then Sweeping(turn, scene, sweep.value) else Idle(turn);
    if sweep.Some? { KeptStaysKeyed(old(pm.podKeyMap), sweep.value.cleanings); }
    OneMore(pm.config, delay, before, m);
    assert (StateAfter(pm.config, before).turns + [turn])[..|StateAfter(pm.config, before).turns|] == StateAfter(pm.config, before).turns;
    ms := before + [m];
  }

  /** The loop, for any number of turns and watch events in any order; the reads, the scenes and the directories may
      hold anything. */
  method ApiMonitorLoop(pm: NodePodMonitor, world: World, delay: int, moments: nat) returns (taintCount: nat, ghost ms: seq<Moment>)
    requires pm.podKeyMap == map[] && world.trace == []
    modifies pm, world`trace
    ensures NodeRun(pm.config, delay, ms)
    ensures pm.podKeyMap == StateAfter(pm.config, ms).tracked && world.trace == StateAfter(pm.config, ms).trace
    ensures Status(pm.apiConnected, taintCount) == ApiMonitor.After(StateAfter(pm.config, ms).turns, delay)
  {
    pm.apiConnected := true;
    taintCount, ms := 0, [];
    for i := 0 to moments
      invariant Tracks(pm.config, delay, ms, pm.podKeyMap, Status(pm.apiConnected, taintCount), world.trace)
    {
      var isEvent: bool, kind: Monitor.WatchType, pod: Pod, volumes: Listing, devices: Listing := *, *, *, *, *;
      var node: Option<Node>, t: Turn, scene: Scene := *, *, *;
      if isEvent && IsPodKey(KeyOf(pod)) {
        ms := HandleEvent(pm, world, kind, pod, volumes, devices, delay, taintCount, ms);
      } else {
        taintCount, ms := HandleTurn(pm, world, node, t, scene, delay, taintCount, ms);
      }
    }
  }

  /** What is proved about runs of events and sweeps holds of this process. */
  lemma {:induction false} RunsAreWatched(c: NodeConfig, delay: int, ms: seq<Moment>)
    requires NodeRun(c, delay, ms)
    ensures var s := StateAfter(c, ms); NodeWatch.Run(c, s.steps, s.tables) && s.tables[|s.steps|] == s.tracked
  {
    if ms != [] {
      var before, last := ms[..|ms| - 1], ms[|ms| - 1];
      var s := StateAfter(c, before);
      Shorter(c, delay, ms);
      RunsAreWatched(c, delay, before);
      LastIsPossible(c, delay, ms);
      match last {
        case Seen(w) => StepAdded(c, s.steps, s.tables, Watched(w), w.After(c, s.tracked));
        case Idle(_) =>
        case Sweeping(_, scene, sw) =>
          StepAdded(c, s.steps, s.tables, Swept(scene, c.nodeName, sw), Kept(s.tracked, sw.cleanings));
      }
    }
  }

  lemma StepAdded(c: NodeConfig, steps: seq<Step>, tables: seq<Tracked>, step: Step, table: Tracked)
    requires NodeWatch.Run(c, steps, tables) && StepDone(c, tables[|steps|], step, table)
    ensures NodeWatch.Run(c, steps + [step], tables + [table])
  {
    forall i | 0 <= i < |steps + [step]| ensures DoneAt(c, steps + [step], tables + [table], i) {
      if i < |steps| { assert DoneAt(c, steps, tables, i); }
    }
  }

  // ---------------------------------------------------------------- when the taint goes

  /** The turns from position from on are those since the count last started again. */
  ghost predicate SinceReset(turns: seq<Turn>, delay: int, from: nat, n: nat) {
    && from <= n <= |turns|
    && (from == 0 || Resets(turns, delay, from - 1))
    && forall i :: from <= i < n ==> !Resets(turns, delay, i)
  }

  lemma {:induction false} LastReset(turns: seq<Turn>, delay: int, n: nat) returns (from: nat)
    requires n <= |turns|
    ensures SinceReset(turns, delay, from, n)
  {
    if n == 0 || Resets(turns, delay, n - 1) {
      from := n;
    } else {
      from := LastReset(turns, delay, n - 1);
    }
  }

  /** A pod may be ignored, or was found neither executing nor present, was cleaned up and is no longer tracked. */
  ghost predicate LeftSafely(c: NodeConfig, scene: Scene, tracked: Tracked, sw: Sweep, key: string)
    requires key in tracked
  {
    exists i: nat :: VisitOf(sw.visits, key, i) && sw.visits[i].info == tracked[key] &&
      (MayBeIgnored(c, scene, sw.visits[i]) ||
       (key !in Kept(tracked, sw.cleanings) &&
        exists j: nat :: j < |sw.cleanings| && CleanedUp(c, scene, sw.visits[i], sw.cleanings[j])))
  }

  /** Moment i is a sweep that lifts the taint, on a tainted reading that is at least the delay-th since the count last
      started again, and it leaves every pod it tracked safely. */
  ghost predicate LiftedSafely(c: NodeConfig, delay: int, ms: seq<Moment>, i: nat)
    requires i < |ms|
  {
    var s := StateAfter(c, ms[..i]);
    && ms[i].Sweeping? && Untainted(c, c.nodeName, ms[i].sweep)
    && (exists from: nat ::
          SinceReset(s.turns + [ms[i].turn], delay, from, |s.turns|) && TaintedIn((s.turns + [ms[i].turn])[from..|s.turns| + 1]) >= delay)
    && forall key :: key in s.tracked ==> LeftSafely(c, ms[i].scene, s.tracked, ms[i].sweep, key)
  }

  lemma LiftIsSafe(c: NodeConfig, delay: int, ms: seq<Moment>, i: nat)
    requires NodeRun(c, delay, ms) && i < |ms| && ms[i].Sweeping? && Untainted(c, c.nodeName, ms[i].sweep)
    ensures LiftedSafely(c, delay, ms, i)
  {
    assert PossibleAt(c, delay, ms, i);
    var s := StateAfter(c, ms[..i]);
    var turns, n := s.turns + [ms[i].turn], |s.turns|;
    var from := LastReset(turns, delay, n);
    assert turns[..n] == s.turns;
    SweepNeedsDelay(turns, delay, from, n);
    forall key | key in s.tracked ensures LeftSafely(c, ms[i].scene, s.tracked, ms[i].sweep, key) {
      UntaintIsSafe(c, ms[i].scene, c.nodeName, s.tracked, ms[i].sweep, key);
    }
  }

  // ---------------------------------------------------------------- taint requests in the trace

  predicate IsTaint(e: Event) { e.Did? && e.call.TaintNode? }

  /** No taint is touched. */
  ghost predicate NoTaint(log: seq<Event>) {
    forall e :: e in log ==> !IsTaint(e)
  }

  lemma RetryHasNoTaint(call: Call, max: int, log: seq<Event>)
    requires Ends(log, call, max) && !call.TaintNode?
    ensures NoTaint(log)
  {
  }

  lemma {:induction false} JoinHasNoTaint(logs: seq<seq<Event>>)
    requires forall i :: 0 <= i < |logs| ==> NoTaint(logs[i])
    ensures NoTaint(Join(logs))
  {
    if logs != [] { JoinHasNoTaint(logs[..|logs| - 1]); }
  }

  lemma VolumeHasNoTaint(d: Driver, v: Volume, max: int, l: VolumeLog)
    requires CleansVolume(d, v, max, l)
    ensures NoTaint(l.Flat())
  {
    RetryHasNoTaint(v.Publication(), max, l.unpublish);
    UnstagesHaveNoTaint(d, v, max, l);
    FinishHasNoTaint(d, v, l.finish);
    NoTaintInAll(l.unpublish, Join(l.unstages), l.finish);
  }

  lemma NoTaintInAll(a: seq<Event>, b: seq<Event>, c: seq<Event>)
    requires NoTaint(a) && NoTaint(b) && NoTaint(c)
    ensures NoTaint(a + b + c)
  {
  }

  lemma FinishHasNoTaint(d: Driver, v: Volume, finish: seq<Event>)
    requires finish == [] || (|finish| == 3 && forall i :: 0 <= i < 3 ==> finish[i].Did?)
    requires finish != [] ==> finish[0].call == Unmount(v.Target(d)) && finish[1].call == Remove(v.Target(d)) && finish[2].call == v.Final()
    ensures NoTaint(finish)
  {
    assert forall i :: 0 <= i < |finish| ==> !IsTaint(finish[i]);
  }

  lemma UnstagesHaveNoTaint(d: Driver, v: Volume, max: int, l: VolumeLog)
    requires CleansVolume(d, v, max, l)
    ensures NoTaint(Join(l.unstages))
  {
    forall i | 0 <= i < |l.unstages| ensures NoTaint(l.unstages[i]) {
      RetryHasNoTaint(NodeUnstage(v.StagingDirs(d)[i], v.info.volumeID), max, l.unstages[i]);
    }
    JoinHasNoTaint(l.unstages);
  }

  lemma {:induction false} PodHasNoTaint(d: Driver, vs: seq<Volume>, max: int, ls: seq<VolumeLog>)
    requires CleansFirst(d, vs, max, ls)
    ensures NoTaint(LogsOf(ls))
  {
    if ls != [] {
      PodHasNoTaint(d, vs, max, ls[..|ls| - 1]);
      VolumeHasNoTaint(d, vs[|ls| - 1], max, ls[|ls| - 1]);
    }
  }

  lemma {:induction false} CleaningsHaveNoTaint(c: NodeConfig, todo: seq<Visit>, cleanings: seq<Cleaning>)
    requires FairCleanings(c, todo, cleanings)
    ensures NoTaint(CleaningLogs(cleanings))
  {
    if cleanings != [] {
      var last := cleanings[|cleanings| - 1];
      CleaningsHaveNoTaint(c, todo, cleanings[..|cleanings| - 1]);
      PodHasNoTaint(c.driver, VolumesOf(last.info), c.maxRetries, last.volumes);
    }
  }

  lemma {:induction false} VisitsHaveNoTaint(visits: seq<Visit>)
    ensures NoTaint(VisitLogs(visits))
  {
    if visits != [] { VisitsHaveNoTaint(visits[..|visits| - 1]); }
  }

  /** A granted request about the taint in the log of a sweep is its last event, and lifts the taint. */
  lemma SweepLifts(c: NodeConfig, scene: Scene, tracked: Tracked, sw: Sweep, q: nat)
    requires SweepRun(c, scene, c.nodeName, tracked, sw)
    requires q < |sw.Log()| && IsTaint(sw.Log()[q]) && sw.Log()[q].err == None
    ensures q == |sw.Log()| - 1 && Untainted(c, c.nodeName, sw)
  {
    VisitsHaveNoTaint(sw.visits);
    CleaningsHaveNoTaint(c, ToBeCleaned(sw.visits), sw.cleanings);
    InTheLast(VisitLogs(sw.visits), CleaningLogs(sw.cleanings), sw.taint, q);
  }

  lemma InTheLast(a: seq<Event>, b: seq<Event>, c: seq<Event>, q: nat)
    requires NoTaint(a) && NoTaint(b) && q < |a + b + c| && IsTaint((a + b + c)[q])
    ensures q >= |a + b| && (a + b + c)[q] == c[q - |a + b|]
  {
    if q < |a + b| { NotInTheFirst(a, b, q); }
  }

  lemma NotInTheFirst(a: seq<Event>, b: seq<Event>, q: nat)
    requires NoTaint(a) && NoTaint(b) && q < |a + b|
    ensures !IsTaint((a + b)[q])
  {
  }

  lemma NotInTheAdded(a: seq<Event>, b: seq<Event>, p: nat)
    requires NoTaint(b) && |a| <= p < |a + b|
    ensures !IsTaint((a + b)[p])
  {
  }

  lemma EventsHaveNoTaint(c: NodeConfig, w: Watch)
    requires w.Answered()
    ensures NoTaint(w.Log(c))
  {
  }

  /** Moment i lifted the taint safely and wrote the request at position p of the trace, as its last event. */
  ghost predicate LiftAt(c: NodeConfig, delay: int, ms: seq<Moment>, p: nat, i: nat) {
    && i < |ms| && LiftedSafely(c, delay, ms, i)
    && |StateAfter(c, ms[..i]).trace| <= p == |StateAfter(c, ms[..i + 1]).trace| - 1
  }

  /** Every granted request about the taint, wherever it is in the trace of the node, is a safe lift of the moment that
      wrote it. */
  lemma {:induction false} GrantedUntaintsAreSafe(c: NodeConfig, delay: int, ms: seq<Moment>, p: nat) returns (i: nat)
    requires NodeRun(c, delay, ms) && p < |StateAfter(c, ms).trace|
    requires IsTaint(StateAfter(c, ms).trace[p]) && StateAfter(c, ms).trace[p].err == None
    ensures LiftAt(c, delay, ms, p, i)
  {
    var n := |ms| - 1;
    if p < |StateAfter(c, ms[..n]).trace| {
      Shorter(c, delay, ms);
      EarlierEvent(c, ms, p);
      i := GrantedUntaintsAreSafe(c, delay, ms[..n], p);
      LiftStays(c, delay, ms, p, i);
    } else {
      i := n;
      LastLift(c, delay, ms, p);
    }
  }

  lemma EarlierEvent(c: NodeConfig, ms: seq<Moment>, p: nat)
    requires ms != [] && p < |StateAfter(c, ms[..|ms| - 1]).trace|
    ensures p < |StateAfter(c, ms).trace| && StateAfter(c, ms).trace[p] == StateAfter(c, ms[..|ms| - 1]).trace[p]
  {
    NextWrites(c, StateAfter(c, ms[..|ms| - 1]), ms[|ms| - 1]);
  }

  lemma NextWrites(c: NodeConfig, s: State, m: Moment)
    ensures |s.trace| <= |Next(c, s, m).trace| && Next(c, s, m).trace[..|s.trace|] == s.trace
  {
  }

  lemma LiftStays(c: NodeConfig, delay: int, ms: seq<Moment>, p: nat, i: nat)
    requires ms != [] && LiftAt(c, delay, ms[..|ms| - 1], p, i)
    ensures LiftAt(c, delay, ms, p, i)
  {
    var before := ms[..|ms| - 1];
    assert before[..i] == ms[..i] && before[..i + 1] == ms[..i + 1];
  }

  lemma LastLift(c: NodeConfig, delay: int, ms: seq<Moment>, p: nat)
    requires NodeRun(c, delay, ms) && ms != [] && |StateAfter(c, ms[..|ms| - 1]).trace| <= p < |StateAfter(c, ms).trace|
    requires IsTaint(StateAfter(c, ms).trace[p]) && StateAfter(c, ms).trace[p].err == None
    ensures LiftAt(c, delay, ms, p, |ms| - 1)
  {
    var n := |ms| - 1;
    assert ms[..n + 1] == ms;
    LastIsPossible(c, delay, ms);
    LastLifts(c, delay, StateAfter(c, ms[..n]), ms[n], p);
    LiftIsSafe(c, delay, ms, n);
  }

  lemma OnlySweepsTouchTaints(c: NodeConfig, delay: int, s: State, m: Moment, p: nat)
    requires Possible(c, delay, s, m) && |s.trace| <= p < |Next(c, s, m).trace| && !m.Sweeping?
    ensures !IsTaint(Next(c, s, m).trace[p])
  {
    match m {
      case Seen(w) =>
        EventsHaveNoTaint(c, w);
        NotInTheAdded(s.trace, w.Log(c), p);
      case Idle(_) =>
    }
  }

  lemma SweepWrites(c: NodeConfig, s: State, m: Moment)
    requires m.Sweeping?
    ensures Next(c, s, m).trace == s.trace + m.sweep.Log()
  {
  }

  lemma LastOfSweep(c: NodeConfig, scene: Scene, s: State, sw: Sweep, p: nat)
    requires SweepRun(c, scene, c.nodeName, s.tracked, sw) && |s.trace| <= p < |s.trace + sw.Log()|
    requires IsTaint((s.trace + sw.Log())[p]) && (s.trace + sw.Log())[p].err == None
    ensures Untainted(c, c.nodeName, sw) && p == |s.trace + sw.Log()| - 1
  {
    SweepLifts(c, scene, s.tracked, sw, p - |s.trace|);
  }

  lemma LastLifts(c: NodeConfig, delay: int, s: State, m: Moment, p: nat)
    requires Possible(c, delay, s, m) && |s.trace| <= p < |Next(c, s, m).trace|
    requires IsTaint(Next(c, s, m).trace[p]) && Next(c, s, m).trace[p].err == None
    ensures m.Sweeping? && Untainted(c, c.nodeName, m.sweep) && p == |Next(c, s, m).trace| - 1
  {
    if m.Sweeping? {
      SweepWrites(c, s, m);
      LastOfSweep(c, m.scene, s, m.sweep, p);
    } else {
      OnlySweepsTouchTaints(c, delay, s, m, p);
    }
  }
}
