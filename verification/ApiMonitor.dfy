/** The node's loop that watches its own API connection and decides when to sweep the node. */
module ApiMonitor {
  import opened Kube
  import opened World
  import opened NodeSweep
  import opened NodeSafety
  import opened Promises
  import Monitor

  datatype Reading = ReadFailed | ReadUntainted | ReadTainted

  /** What one turn of the loop meets: the first read of the node, whether each of the retries would succeed, and what
      a sweep, if one is started, returns. */
  datatype Turn = Turn(first: Reading, retry0: bool, retry1: bool, retry2: bool, sweep: bool) {
    function Retry(i: nat): bool
      requires i < 3
    {
      if i == 0 then retry0 else if i == 1 then retry1 else retry2
    }

    /** The answers of the retries from number i on; the first success ends them. */
    function Retries(i: nat): seq<bool>
      requires i <= 3
      decreases 3 - i
    {
      if i == 3 then [] else if Retry(i) then [true] else [false] + Retries(i + 1)
    }

    /** The reads this turn makes, and whether they succeed. */
    function Reads(): seq<bool> {
      if first != ReadFailed then [true] else [false] + Retries(0)
    }

    /** Four failed reads in a row. */
    predicate LosesContact() {
      first == ReadFailed && !retry0 && !retry1 && !retry2
    }
  }

  datatype Status = Status(connected: bool, taintCount: nat)

  const START := Status(true, 0)

  predicate Sweeps(s: Status, t: Turn, delay: int) {
    t.first == ReadTainted && s.taintCount + 1 >= delay
  }

  function Step(s: Status, t: Turn, delay: int): Status {
    if t.LosesContact() then (if s.connected then Status(false, 0) else s)
    else if t.first == ReadFailed then s
    else if t.first == ReadUntainted then Status(true, s.taintCount)
    else Status(true, if Sweeps(s, t, delay) && t.sweep then 0 else s.taintCount + 1)
  }

  /** The status after all turns, oldest first. */
  function After(turns: seq<Turn>, delay: int): Status {
    if turns == [] then START else Step(After(turns[..|turns| - 1], delay), turns[|turns| - 1], delay)
  }

  /** A sweep is started in turn i. */
  predicate SweptIn(turns: seq<Turn>, delay: int, i: nat)
    requires i < |turns|
  {
    Sweeps(After(turns[..i], delay), turns[i], delay)
  }

  /** Losing contact is four failed reads in a row. */
  lemma ContactIsLostByFourReads(t: Turn)
    ensures t.LosesContact() <==> t.Reads() == [false, false, false, false]
  {
    if t.first == ReadFailed {
      assert t.retry0 ==> |t.Reads()| == 2;
      assert !t.retry0 && t.retry1 ==> |t.Retries(1)| == 1 && |t.Reads()| == 3;
      assert !t.retry0 && !t.retry1 ==> t.Retries(2) == [t.retry2] && t.Retries(1) == [false, t.retry2] by {
        assert t.Retries(3) == [];
      }
      assert !t.retry0 && !t.retry1 ==> t.Reads() == [false, false, false, t.retry2];
      if t.Reads() == [false, false, false, false] { assert t.Reads()[3] == false; }
    }
  }

  /** The retries after a failed first read. */
  method RetryRead(t: Turn) returns (failed: bool, ghost log: seq<bool>)
    requires t.first == ReadFailed
    ensures log == t.Reads() && (failed <==> t.LosesContact())
  {
    failed, log := true, [false];
    var i := 0;
    while i < 3 && failed
      invariant 0 <= i <= 3
      invariant t.Reads() == log + if failed then t.Retries(i) else []
      invariant failed <==> forall k :: 0 <= k < i ==> !t.Retry(k)
    {
      failed := !t.Retry(i);
      log := log + [!failed];
      i := i + 1;
    }
    assert t.LosesContact() <==> !t.Retry(0) && !t.Retry(1) && !t.Retry(2);
  }

  /** What a sweep of the loop does, if there is one. */
  ghost predicate SweptBy(c: NodeConfig, scene: Scene, before: Tracked, after: Tracked, log: seq<Event>, untainted: bool,
                          sweep: Option<Sweep>)
  {
    match sweep
    case None => after == before && log == []
    case Some(sw) =>
      && SweepRun(c, scene, c.nodeName, before, sw)
      && (untainted <==> Untainted(c, c.nodeName, sw))
      && after == Kept(before, sw.cleanings) && log == sw.Log()
  }

  /** A tainted reading: it counts, and from the delay-th on it starts a sweep. */
  method CountTainted(pm: NodePodMonitor, world: World, scene: Scene, delay: int, count: nat)
    returns (taintCount: nat, ghost untainted: bool, ghost sweep: Option<Sweep>)
    requires Keyed(pm.podKeyMap)
    modifies pm`podKeyMap, world`trace
    ensures taintCount == if sweep.Some? && untainted then 0 else count + 1
    ensures sweep.Some? <==> count + 1 >= delay
    ensures world.trace == old(world.trace) + SweepLog(sweep)
    ensures SweptBy(pm.config, scene, old(pm.podKeyMap), pm.podKeyMap, SweepLog(sweep), untainted, sweep)
  {
    taintCount, untainted, sweep := count + 1, false, None;
    if taintCount >= delay {
      var swept, sw := NodeModeCleanupPods(pm, world, scene, pm.config.nodeName);
      untainted, sweep := swept, Some(sw);
      if swept { taintCount := 0; }
    }
  }

  function SweepLog(sweep: Option<Sweep>): seq<Event> {
    match sweep
    case None => []
    case Some(sw) => sw.Log()
  }

  /** What the first read of a turn means: the node is tainted if it has podmon's taint with effect NoSchedule. */
  predicate MeantBy(c: NodeConfig, node: Option<Node>, reading: Reading) {
    match reading
    case ReadFailed => node.None?
    case ReadTainted => node.Some? && HasKeyEffect(node.value, c.podmonTaint, "NoSchedule")
    case ReadUntainted => node.Some? && !HasKeyEffect(node.value, c.podmonTaint, "NoSchedule")
  }

  /** One turn of the loop. node is what the first read answers, t what the retries would, and scene what a sweep would
      meet; whether a sweep succeeds is for the sweep to say, so turn is t with the reading and that filled in. */
  method TakeTurn(pm: NodePodMonitor, world: World, node: Option<Node>, t: Turn, scene: Scene, delay: int, count: nat)
    returns (taintCount: nat, ghost turn: Turn, ghost sweep: Option<Sweep>, ghost log: seq<bool>)
    requires Keyed(pm.podKeyMap)
    modifies pm, world`trace
    ensures turn == t.(first := turn.first, sweep := turn.sweep) && MeantBy(pm.config, node, turn.first) && log == turn.Reads()
    ensures Status(pm.apiConnected, taintCount) == Step(Status(old(pm.apiConnected), count), turn, delay)
    ensures sweep.Some? <==> Sweeps(Status(old(pm.apiConnected), count), turn, delay)
    ensures world.trace == old(world.trace) + SweepLog(sweep)
    ensures SweptBy(pm.config, scene, old(pm.podKeyMap), pm.podKeyMap, SweepLog(sweep), turn.sweep, sweep)
  {
    var reading := ReadNode(pm.config, node);
    if reading == ReadFailed {
      sweep, turn := None, t.(first := reading);
      taintCount, log := FailedTurn(pm, t.(first := reading), delay, count);
    } else {
      taintCount, turn, sweep := SucceededTurn(pm, world, t.(first := reading), scene, delay, count);
      log := [true];
    }
  }

  /** The first read of a turn. */
  method ReadNode(c: NodeConfig, node: Option<Node>) returns (reading: Reading)
    ensures MeantBy(c, node, reading)
  {
    if node == None { return ReadFailed; }
    var tainted := Monitor.NodeHasTaint(node.value, c.podmonTaint, NO_SCHEDULE);
    reading := if tainted then ReadTainted else ReadUntainted;
  }

  /** A turn whose first read succeeded. */
  method SucceededTurn(pm: NodePodMonitor, world: World, t: Turn, scene: Scene, delay: int, count: nat)
    returns (taintCount: nat, ghost turn: Turn, ghost sweep: Option<Sweep>)
    requires Keyed(pm.podKeyMap) && t.first != ReadFailed
    modifies pm, world`trace
    ensures turn == t.(sweep := turn.sweep)
    ensures Status(pm.apiConnected, taintCount) == Step(Status(old(pm.apiConnected), count), turn, delay)
    ensures sweep.Some? <==> Sweeps(Status(old(pm.apiConnected), count), turn, delay)
    ensures world.trace == old(world.trace) + SweepLog(sweep)
    ensures SweptBy(pm.config, scene, old(pm.podKeyMap), pm.podKeyMap, SweepLog(sweep), turn.sweep, sweep)
  {
    taintCount, turn, sweep := count, t, None;
    if !pm.apiConnected { pm.apiConnected := true; }
    if t.first == ReadTainted {
      ghost var untainted;
      taintCount, untainted, sweep := CountTainted(pm, world, scene, delay, count);
      turn := t.(sweep := untainted);
    }
  }

  /** A turn whose first read failed. */
  method FailedTurn(pm: NodePodMonitor, t: Turn, delay: int, count: nat) returns (taintCount: nat, ghost log: seq<bool>)
    requires t.first == ReadFailed
    modifies pm`apiConnected
    ensures log == t.Reads()
    ensures Status(pm.apiConnected, taintCount) == Step(Status(old(pm.apiConnected), count), t, delay)
  {
    taintCount := count;
    var failed;
    failed, log := RetryRead(t);
    if failed && pm.apiConnected {
      pm.apiConnected := false;
      taintCount := 0;
    }
  }

  // ---------------------------------------------------------------- connection

  /** While the connection is lost nothing is counted. */
  lemma {:induction false} LostMeansNoCount(turns: seq<Turn>, delay: int)
    ensures !After(turns, delay).connected ==> After(turns, delay).taintCount == 0
  {
    if turns != [] { LostMeansNoCount(turns[..|turns| - 1], delay); }
  }

  /** The connection counts as lost exactly when some turn had four failed reads in a row and no first read has
      succeeded since. */
  lemma {:induction false} LostMeansFourFailures(turns: seq<Turn>, delay: int)
    ensures !After(turns, delay).connected <==>
            exists i :: 0 <= i < |turns| && LostSince(turns, i)
  {
    if turns != [] {
      var before, last := turns[..|turns| - 1], turns[|turns| - 1];
      LostMeansFourFailures(before, delay);
      if last.first == ReadFailed && !last.LosesContact() {
        assert forall i :: 0 <= i < |turns| && LostSince(turns, i) ==> i < |before| && LostSince(before, i);
        assert forall i :: 0 <= i < |before| && LostSince(before, i) ==> LostSince(turns, i);
      } else if last.LosesContact() {
        assert LostSince(turns, |turns| - 1);
      }
    }
  }

  /** Turn i lost contact, and no first read has succeeded since. */
  predicate LostSince(turns: seq<Turn>, i: nat)
    requires i < |turns|
  {
    turns[i].LosesContact() && forall k :: i < k < |turns| ==> turns[k].first == ReadFailed
  }

  // ---------------------------------------------------------------- stabilisation

  function TaintedIn(turns: seq<Turn>): nat {
    if turns == [] then 0
    else TaintedIn(turns[..|turns| - 1]) + if turns[|turns| - 1].first == ReadTainted then 1 else 0
  }

  /** Turn i starts the count again: contact was lost, or a sweep succeeded. */
  predicate Resets(turns: seq<Turn>, delay: int, i: nat)
    requires i < |turns|
  {
    turns[i].LosesContact() || (SweptIn(turns, delay, i) && turns[i].sweep)
  }

  lemma Slices(turns: seq<Turn>, from: nat, to: nat)
    requires from < to <= |turns|
    ensures turns[..to][..to - 1] == turns[..to - 1] && turns[..to][to - 1] == turns[to - 1]
    ensures turns[from..to][..to - from - 1] == turns[from..to - 1] && turns[from..to][to - from - 1] == turns[to - 1]
  {
  }

  /** The count is the number of tainted readings since the last reset; untainted and failed readings in between
      neither add to it nor clear it. */
  lemma {:induction false} CountSinceReset(turns: seq<Turn>, delay: int, from: nat, to: nat)
    requires from <= to <= |turns|
    requires from == 0 || Resets(turns, delay, from - 1)
    requires forall i :: from <= i < to ==> !Resets(turns, delay, i)
    ensures After(turns[..to], delay).taintCount == TaintedIn(turns[from..to])
  {
    if from < to {
      CountSinceReset(turns, delay, from, to - 1);
      Slices(turns, from, to);
      assert !Resets(turns, delay, to - 1);
    } else if from > 0 {
      Slices(turns, 0, to);
      LostMeansNoCount(turns[..to - 1], delay);
    }
  }

  /** A sweep starts exactly on a tainted reading that is at least the delay-th since the last reset. */
  lemma SweepNeedsDelay(turns: seq<Turn>, delay: int, from: nat, i: nat)
    requires from <= i < |turns|
    requires from == 0 || Resets(turns, delay, from - 1)
    requires forall k :: from <= k < i ==> !Resets(turns, delay, k)
    ensures SweptIn(turns, delay, i) <==> turns[i].first == ReadTainted && TaintedIn(turns[from..i + 1]) >= delay
  {
    CountSinceReset(turns, delay, from, i);
    Slices(turns, from, i + 1);
  }

  function Successes(turns: seq<Turn>, delay: int): nat {
    if turns == [] then 0
    else
      var before := turns[..|turns| - 1];
      Successes(before, delay) + if Sweeps(After(before, delay), turns[|turns| - 1], delay) && turns[|turns| - 1].sweep then 1 else 0
  }

  /** Over a whole run every successful sweep has used up at least delay tainted readings of its own. */
  lemma {:induction false} SweepsAreBudgeted(turns: seq<Turn>, delay: int)
    ensures delay * Successes(turns, delay) + After(turns, delay).taintCount <= TaintedIn(turns)
  {
    if turns != [] {
      var before := turns[..|turns| - 1];
      SweepsAreBudgeted(before, delay);
      assert delay * (Successes(before, delay) + 1) == delay * Successes(before, delay) + delay;
    }
  }
}
