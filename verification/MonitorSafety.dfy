/** The monitor's endless loop as a run of any number of poll rounds, and what a force delete in it proves. */
module MonitorSafety {
  import opened Kube
  import opened World
  import opened Monitor
  import opened Connectivity
  import opened ControllerCleanup
  import opened CleanupSafety
  import opened ControllerHandler
  import opened ArrayMonitor
  import opened HandOffs
  import opened Promises

  /** A round: whether other goroutines left it alone, what they did since the round before and while it ran, the turns
      of its sampling and the histories after it, and what it did then. */
  datatype Round = Round(alone: bool, between: Chronicle, record: Chronicle, turns: seq<Turn>, history: History,
                         tainting: seq<Event>, handOffs: seq<HandOff>) {
    /** All sampling comes before all tainting, and all tainting before all cleaning. */
    function Log(): seq<Event> { TurnLogs(turns) + tainting + Logs(handOffs) }

    function ToClean(): seq<string> { Disconnected(turns) }

    function Seen(): Sightings { Sighted(turns) }
  }

  ghost predicate RoundFacts(config: Config, number: nat, before: History, rd: Round) {
    && Told(config, rd.record) && KeyedInfos(rd.record.past[0].infos)
    && NoneSampled(before, number)
    && Taken(before, number, config.lossThreshold, rd.turns) && rd.history == HistoryAfter(before, rd.turns)
    && AllSeen(rd.record, rd.turns)
    && TaintsOnce(NodesOfTurns(rd.turns), config.podmonTaint, rd.tainting)
    && HandedOver(config, rd.ToClean(), rd.handOffs) && AllLoaded(rd.record, rd.handOffs)
    && (rd.alone ==> LeftAlone(rd))
    && |rd.handOffs| <= |rd.ToClean()| * |rd.ToClean()|
  }

  ghost predicate NoneSampled(history: History, round: nat) {
    forall key :: NotSampled(history, key, round)
  }

  ghost predicate NotSampled(history: History, key: string, round: nat) {
    !SampledIn(Samples(history, key), round)
  }

  /** Every record got a turn and, if listed, was handed over, as it was recorded at the start. */
  ghost predicate LeftAlone(rd: Round)
    requires rd.record.past != []
  {
    var start := rd.record.past[0];
    && AllSeen(Beginning(start), rd.turns) && rd.Seen().Keys == start.infos.Keys
    && Handing(start.infos, rd.handOffs)
    && InGroups(start.infos, rd.ToClean(), rd.handOffs)
  }

  /** The histories round r starts from. */
  function HistoryBefore(run: seq<Round>, r: nat): History
    requires r <= |run|
  {
    if r == 0 then map[] else run[r - 1].history
  }

  function LogOf(run: seq<Round>): seq<Event> {
    if run == [] then [] else LogOf(run[..|run| - 1]) + run[|run| - 1].Log()
  }

  /** Round r of the run has number r + 1. */
  ghost predicate FactsAt(config: Config, run: seq<Round>, r: nat)
    requires r < |run|
  {
    RoundFacts(config, r + 1, HistoryBefore(run, r), run[r])
  }

  ghost predicate MonitorRun(config: Config, run: seq<Round>) {
    forall r :: 0 <= r < |run| ==> FactsAt(config, run, r)
  }

  lemma LogOn(run: seq<Round>, rd: Round)
    ensures LogOf(run + [rd]) == LogOf(run) + rd.Log()
  {
    assert (run + [rd])[..|run|] == run;
  }

  lemma RunOn(config: Config, run: seq<Round>, rd: Round)
    requires MonitorRun(config, run) && FactsAt(config, run + [rd], |run|)
    ensures MonitorRun(config, run + [rd])
  {
    forall r | 0 <= r < |run| ensures FactsAt(config, run + [rd], r) { FactsStay(config, run, rd, r); }
  }

  lemma FactsStay(config: Config, run: seq<Round>, rd: Round, r: nat)
    requires MonitorRun(config, run) && r < |run|
    ensures FactsAt(config, run + [rd], r)
  {
    assert FactsAt(config, run, r);
    assert (run + [rd])[r] == run[r] && HistoryBefore(run + [rd], r) == HistoryBefore(run, r);
  }

  /** The rounds' chronicles and those in between make up one. */
  ghost predicate Linked(config: Config, run: seq<Round>) {
    run == [] ||
    var before, last := run[..|run| - 1], run[|run| - 1];
    && Linked(config, before)
    && Told(config, last.between) && last.record.past != []
    && last.between.past[|last.between.past| - 1] == last.record.past[0]
    && (before != [] ==> var earlier := before[|before| - 1].record.past; earlier != [] && last.between.past[0] == earlier[|earlier| - 1])
  }

  /** One round; unless the monitor is alone, watch events are handled and clean-ups end while it runs. */
  method PollRound(cm: PodMonitor, cache: ConnectivityCache, world: World, alone: bool, ghost between: Chronicle) returns (ghost rd: Round)
    requires cm.Keyed() && cache.Valid()
    modifies cm`infos, cm`nodeUIDs, cache, world`trace
    ensures cache.Valid() && cache.round == old(cache.round) + 1
    ensures world.trace == old(world.trace) + rd.Log()
    ensures rd.history == cache.history && rd.alone == alone && rd.between == between
    ensures RoundFacts(cm.config, cache.round, old(cache.history), rd)
    ensures rd.record.past[0] == Tables(old(cm.infos), old(cm.nodeUIDs)) && Follows(cm.config, rd.record, cm.infos, cm.nodeUIDs)
    ensures alone ==> cm.infos == old(cm.infos) - Gone(rd.handOffs) && cm.nodeUIDs == old(cm.nodeUIDs)
  {
    cache.ResetSampled();
    assert NoneSampled(cache.history, cache.round) by {
      forall key ensures NotSampled(cache.history, key, cache.round) { assert !SampledIn(Samples(cache.history, key), cache.round); }
    }
    var toClean, nodesToTaint, r1, turns := SamplePods(cm, cache, world, alone);
    ghost var tainting := TaintNodes(world, nodesToTaint, cm.config.podmonTaint);
    ghost var handOffs, r2 := CleanPods(cm, world, toClean, alone, r1);
    SeenStays(r1, r2, turns);
    rd := Round(alone, between, r2, turns, cache.history, tainting, handOffs);
    assert world.trace == old(world.trace) + rd.Log() by {
      Regroup(old(world.trace), TurnLogs(turns), tainting);
      Regroup(old(world.trace), TurnLogs(turns) + tainting, Logs(handOffs));
    }
  }

  /** One more round of a run. */
  method PollNext(cm: PodMonitor, cache: ConnectivityCache, world: World, alone: bool, ghost between: Chronicle, ghost run: seq<Round>)
    returns (ghost rd: Round)
    requires cm.Keyed() && cache.Valid()
    requires MonitorRun(cm.config, run) && cache.round == |run| && cache.history == HistoryBefore(run, |run|)
    modifies cm`infos, cm`nodeUIDs, cache, world`trace
    ensures cache.Valid() && cache.round == |run| + 1 && cache.history == HistoryBefore(run + [rd], |run| + 1)
    ensures MonitorRun(cm.config, run + [rd])
    ensures world.trace == old(world.trace) + rd.Log()
    ensures rd.alone == alone && rd.between == between
    ensures rd.record.past != [] && rd.record.past[0] == Tables(old(cm.infos), old(cm.nodeUIDs))
    ensures Follows(cm.config, rd.record, cm.infos, cm.nodeUIDs)
    ensures alone ==> cm.infos == old(cm.infos) - Gone(rd.handOffs) && cm.nodeUIDs == old(cm.nodeUIDs)
  {
    rd := PollRound(cm, cache, world, alone, between);
    assert HistoryBefore(run + [rd], |run|) == HistoryBefore(run, |run|);
    RunOn(cm.config, run, rd);
  }

  /** The monitor polls until it is stopped; the watch handlers run between rounds and during some of them. */
  method ArrayConnectivityMonitor(cm: PodMonitor, cache: ConnectivityCache, world: World, polls: nat)
    returns (ghost run: seq<Round>)
    requires cm.Keyed() && cache.Valid() && cache.round == 0 && cache.history == map[]
    modifies cm`infos, cm`nodeUIDs, cache, world`trace
    ensures |run| == polls && MonitorRun(cm.config, run) && Linked(cm.config, run)
    ensures world.trace == old(world.trace) + LogOf(run)
  {
    run := [];
    ghost var between := Beginning(Tables(cm.infos, cm.nodeUIDs));
    for i := 0 to polls
      invariant cache.Valid() && cache.round == |run| == i && cache.history == HistoryBefore(run, |run|)
      invariant MonitorRun(cm.config, run) && Linked(cm.config, run)
      invariant Follows(cm.config, between, cm.infos, cm.nodeUIDs) && EndsWith(run, between.past[0])
      invariant world.trace == old(world.trace) + LogOf(run)
    {
      run := PollLinked(cm, cache, world, between, run, old(world.trace));
      between := WatchEvents(cm, Beginning(Tables(cm.infos, cm.nodeUIDs)));
    }
  }

  /** One more round of a linked run. */
  method PollLinked(cm: PodMonitor, cache: ConnectivityCache, world: World, ghost between: Chronicle, ghost run0: seq<Round>, ghost t0: seq<Event>)
    returns (ghost run: seq<Round>)
    requires cache.Valid() && cache.round == |run0| && cache.history == HistoryBefore(run0, |run0|)
    requires MonitorRun(cm.config, run0) && Linked(cm.config, run0) && world.trace == t0 + LogOf(run0)
    requires Follows(cm.config, between, cm.infos, cm.nodeUIDs) && EndsWith(run0, between.past[0])
    modifies cm`infos, cm`nodeUIDs, cache, world`trace
    ensures |run| == |run0| + 1 && cache.Valid() && cache.round == |run| && cache.history == HistoryBefore(run, |run|)
    ensures MonitorRun(cm.config, run) && Linked(cm.config, run) && world.trace == t0 + LogOf(run)
    ensures cm.Keyed() && EndsWith(run, Tables(cm.infos, cm.nodeUIDs))
  {
    var alone: bool := *;
    ghost var rd := PollNext(cm, cache, world, alone, between, run0);
    LogOn(run0, rd);
    Regroup(t0, LogOf(run0), rd.Log());
    LinkedOn(cm.config, run0, rd);
    run := run0 + [rd];
  }

  /** The run, if there is any, ends with these tables. */
  ghost predicate EndsWith(run: seq<Round>, t: Tables) {
    run != [] ==> var past := run[|run| - 1].record.past; past != [] && past[|past| - 1] == t
  }

  lemma LinkedOn(config: Config, run: seq<Round>, rd: Round)
    requires Linked(config, run) && Told(config, rd.between) && EndsWith(run, rd.between.past[0])
    requires rd.record.past != [] && rd.between.past[|rd.between.past| - 1] == rd.record.past[0]
    ensures Linked(config, run + [rd])
  {
    assert (run + [rd])[..|run|] == run;
  }

  // ---------------------------------------------------------------- what the samples of a run stand for

  /** The sample's round took it from an answer of the driver. */
  ghost predicate SampleBacked(run: seq<Round>, key: string, s: Sample) {
    1 <= s.round <= |run| && Backed(key, s, TurnLogs(run[s.round - 1].turns))
  }

  /** Each sample of h comes from one of the first n rounds, each from a later one than the sample before. */
  ghost predicate AllBacked(run: seq<Round>, n: int, key: string, h: seq<Sample>) {
    h == [] ||
    var last := h[|h| - 1];
    last.round <= n && SampleBacked(run, key, last) && AllBacked(run, last.round - 1, key, h[..|h| - 1])
  }

  lemma {:induction false} BackedAscends(run: seq<Round>, n: nat, key: string, h: seq<Sample>)
    requires AllBacked(run, n, key, h)
    ensures Ascending(h, n)
  {
    if h != [] { BackedAscends(run, h[|h| - 1].round - 1, key, h[..|h| - 1]); }
  }

  lemma {:induction false} BackedAt(run: seq<Round>, n: int, key: string, h: seq<Sample>, i: nat)
    requires AllBacked(run, n, key, h) && i < |h|
    ensures SampleBacked(run, key, h[i])
  {
    if i < |h| - 1 { BackedAt(run, h[|h| - 1].round - 1, key, h[..|h| - 1], i); }
  }

  /** What a round adds to the samples of a key. */
  ghost predicate GrowsIn(run: seq<Round>, r: nat, key: string)
    requires r < |run|
  {
    GainsBacked(key, Samples(HistoryBefore(run, r), key), Samples(HistoryBefore(run, r + 1), key), r + 1, TurnLogs(run[r].turns))
  }

  lemma RoundGrows(config: Config, run: seq<Round>, r: nat, key: string)
    requires MonitorRun(config, run) && r < |run|
    ensures GrowsIn(run, r, key)
  {
    assert FactsAt(config, run, r);
    TurnsGrow(HistoryBefore(run, r), r + 1, config.lossThreshold, run[r].turns);
    assert GrowsAt(HistoryBefore(run, r), HistoryBefore(run, r + 1), key, r + 1, TurnLogs(run[r].turns));
  }

  lemma SamplesAreBacked(config: Config, run: seq<Round>, r: nat, key: string)
    requires MonitorRun(config, run) && r <= |run|
    ensures AllBacked(run, r, key, Samples(HistoryBefore(run, r), key))
  {
    forall i: nat | i < |run| ensures GrowsIn(run, i, key) { RoundGrows(config, run, i, key); }
    GrowthIsBacked(run, r, key);
  }

  lemma {:induction false} GrowthIsBacked(run: seq<Round>, r: nat, key: string)
    requires r <= |run| && forall i: nat :: i < |run| ==> GrowsIn(run, i, key)
    ensures AllBacked(run, r, key, Samples(HistoryBefore(run, r), key))
  {
    if r > 0 {
      GrowthIsBacked(run, r - 1, key);
      assert GrowsIn(run, r - 1, key);
      OneMoreBacked(run, r - 1, key, Samples(HistoryBefore(run, r - 1), key), Samples(HistoryBefore(run, r), key));
    }
  }

  lemma OneMoreBacked(run: seq<Round>, r: nat, key: string, h0: seq<Sample>, h1: seq<Sample>)
    requires r < |run| && AllBacked(run, r, key, h0) && GainsBacked(key, h0, h1, r + 1, TurnLogs(run[r].turns))
    ensures AllBacked(run, r + 1, key, h1)
  {
    if h1 != h0 { assert h1[..|h1| - 1] == h0; }
  }

  // ---------------------------------------------------------------- a force delete rests on proven loss

  /** The node copy is current by these UIDs, and one of the record's arrays answered "not connected" in every one of at
      least threshold sampled rounds in a row, the last of them this round, for the key of the record's node; each answer
      is in the log of its own round. */
  ghost predicate LossProven(config: Config, run: seq<Round>, r: nat, uids: map<string, string>, info: PodInfo)
    requires r < |run|
  {
    && Current(uids, info.node)
    && exists a :: 0 <= a < |info.arrayIDs| &&
                   LossOf(config, run, r, NodeKey(info.node.name, info.arrayIDs[a]),
                          Samples(run[r].history, NodeKey(info.node.name, info.arrayIDs[a])))
  }

  ghost predicate LossOf(config: Config, run: seq<Round>, r: nat, key: string, h: seq<Sample>) {
    && config.lossThreshold <= |h| && h != [] && h[|h| - 1].round == r + 1
    && (forall i, k :: 0 <= i < k < |h| ==> h[i].round < h[k].round)
    && (forall i :: 0 <= i < |h| && |h| - config.lossThreshold <= i ==> !h[i].connected && SampleBacked(run, key, h[i]))
  }

  /** (Names of nodes hold no colon.) */
  ghost predicate NoColons(run: seq<Round>) {
    forall q, e :: 0 <= q < |run| && e in TurnLogs(run[q].turns) && e.Validated? ==> ':' !in e.node
  }

  /** While the round sampled, the array said that this node is not connected. */
  ghost predicate SaidLost(rd: Round, node: string) {
    exists e :: e in TurnLogs(rd.turns) && e.Validated? && e.node == node && SaysDisconnected(e.reply)
  }

  /** In threshold many rounds, the last of them round r, the array said that this node is not connected. */
  ghost predicate LostInARow(config: Config, run: seq<Round>, r: nat, node: string) {
    exists rounds: seq<nat> :: LostInRounds(config, run, r, node, rounds)
  }

  ghost predicate LostInRounds(config: Config, run: seq<Round>, r: nat, node: string, rounds: seq<nat>) {
    && config.lossThreshold <= |rounds| && r < |run| && (rounds != [] ==> rounds[|rounds| - 1] == r)
    && (forall i, k :: 0 <= i < k < |rounds| ==> rounds[i] < rounds[k])
    && (forall i :: 0 <= i < |rounds| ==> rounds[i] <= r && SaidLost(run[rounds[i]], node))
  }

  lemma ShorterNodeDiffers(node: string, arrayID: string, longer: string, arrayID2: string)
    requires ':' !in longer && |node| < |longer|
    ensures NodeKey(node, arrayID) != NodeKey(longer, arrayID2)
  {
    assert NodeKey(node, arrayID)[|node|] == ':' && NodeKey(longer, arrayID2)[|node|] == longer[|node|];
  }

  lemma KeysTellApart(node: string, arrayID: string, node2: string, arrayID2: string)
    requires ':' !in node && ':' !in node2 && NodeKey(node, arrayID) == NodeKey(node2, arrayID2)
    ensures node == node2 && arrayID == arrayID2
  {
    if |node| < |node2| { ShorterNodeDiffers(node, arrayID, node2, arrayID2); }
    if |node2| < |node| { ShorterNodeDiffers(node2, arrayID2, node, arrayID); }
    var key := NodeKey(node, arrayID);
    assert key[..|node|] == node && key[..|node2|] == node2;
    assert key[|node| + 1..] == arrayID && key[|node2| + 1..] == arrayID2;
  }

  lemma SampleSaysLost(run: seq<Round>, node: string, arrayID: string, s: Sample)
    requires NoColons(run) && ':' !in node && SampleBacked(run, NodeKey(node, arrayID), s) && !s.connected
    ensures SaidLost(run[s.round - 1], node)
  {
    var log := TurnLogs(run[s.round - 1].turns);
    var e :| e in log && e.Validated? && NodeKey(e.node, s.arrayID) == NodeKey(node, arrayID) && SaysDisconnected(e.reply);
    KeysTellApart(e.node, s.arrayID, node, arrayID);
  }

  /** The node of a listed pod was said to be lost threshold many times in a row. */
  lemma LostNodesSaySo(config: Config, run: seq<Round>, r: nat, podKey: string)
    requires MonitorRun(config, run) && r < |run| && podKey in run[r].ToClean() && NoColons(run)
    requires podKey in run[r].Seen() ==> ':' !in run[r].Seen()[podKey].info.node.name
    ensures podKey in run[r].Seen() && LostInARow(config, run, r, run[r].Seen()[podKey].info.node.name)
  {
    LossIsProven(config, run, r, podKey);
    var info := run[r].Seen()[podKey].info;
    var a :| 0 <= a < |info.arrayIDs| &&
             LossOf(config, run, r, NodeKey(info.node.name, info.arrayIDs[a]),
                    Samples(run[r].history, NodeKey(info.node.name, info.arrayIDs[a])));
    LossSaysSo(config, run, r, info.node.name, info.arrayIDs[a]);
  }

  lemma LossSaysSo(config: Config, run: seq<Round>, r: nat, node: string, arrayID: string)
    requires r < |run| && NoColons(run) && ':' !in node
    requires LossOf(config, run, r, NodeKey(node, arrayID), Samples(run[r].history, NodeKey(node, arrayID)))
    ensures LostInARow(config, run, r, node)
  {
    var h := Samples(run[r].history, NodeKey(node, arrayID));
    var n: nat := if config.lossThreshold < 0 then 0 else config.lossThreshold;
    var rounds := RoundsOf(run, NodeKey(node, arrayID), h, |h| - n);
    forall i | 0 <= i < |rounds| ensures rounds[i] <= r && SaidLost(run[rounds[i]], node) {
      SampleSaysLost(run, node, arrayID, h[|h| - n + i]);
    }
    assert LostInRounds(config, run, r, node, rounds);
  }

  /** The rounds of the samples from position from on. */
  lemma RoundsOf(run: seq<Round>, key: string, h: seq<Sample>, from: nat) returns (rounds: seq<nat>)
    requires from <= |h| && forall i :: from <= i < |h| ==> SampleBacked(run, key, h[i])
    ensures |rounds| == |h| - from && forall i :: 0 <= i < |rounds| ==> rounds[i] == h[from + i].round - 1
  {
    rounds := seq(|h| - from, i requires 0 <= i < |h| - from => h[from + i].round - 1);
  }

  /** The clean-up itself asked the array again about the pod's volumes: no error, not connected, and no I/O unless a
      volume is shared. (It can only ask when the driver has the extension and is connected.) */
  ghost predicate FreshlyValidated(config: Config, h: HandOff)
    requires h.pod.Some?
  {
    config.extensionsPresent && DriverConnected(AtValidation, false) !in h.run.Flat() ==>
      exists e :: e in h.run.Flat() && e.Validated? && e.node == h.info.node.name && e.nodeID == h.info.node.csiNodeID &&
                  e.volumes == VolumeIDs(h.run.PVs()) && SaysDisconnected(e.reply) &&
                  (e.reply.Ok? && e.reply.value.iosInProgress ==> AnyShared(h.run.PVs()))
  }

  /** What a hand-off of round r whose clean-up asked for the delete rests on. Its record was stored when it was loaded,
      and is the one that was sampled whenever the monitor was alone; in any case one of that key was sampled, on proven
      loss. */
  ghost predicate SafeDelete(config: Config, run: seq<Round>, r: nat, h: HandOff)
    requires r < |run|
  {
    var rd := run[r];
    && IsJustified(config, rd, h)
    && IsRecord(rd.record, h.loaded, h.info)
    && h.info.podKey in rd.Seen()
    && var s := rd.Seen()[h.info.podKey];
       && LossProven(config, run, r, s.uids, s.info)
       && (NoColons(run) && ':' !in s.info.node.name ==> LostInARow(config, run, r, s.info.node.name))
       && Attempt(config, s.info.node.name, rd.tainting)
       && (rd.alone ==> s.info == h.info)
  }

  /** When the clean-up looked, the pod was not on record as another instance. */
  ghost predicate StillRecorded(rd: Round, h: HandOff) {
    && h.checked < |rd.record.past|
    && var infos := rd.record.past[h.checked].infos;
       h.info.podKey in infos ==> infos[h.info.podKey].podUID == h.info.podUID
  }

  ghost predicate Attempt(config: Config, node: string, log: seq<Event>) {
    exists e :: e in log && e.Did? && e.call == TaintNode(node, config.podmonTaint, "NoSchedule", false)
  }

  lemma HandOffIsSafe(config: Config, run: seq<Round>, r: nat, i: nat)
    requires MonitorRun(config, run) && r < |run| && i < |run[r].handOffs|
    requires run[r].handOffs[i].run.delete != []
    ensures SafeDelete(config, run, r, run[r].handOffs[i])
  {
    var h, rd := run[r].handOffs[i], run[r];
    RoundHands(config, run, r);
    HandOffFacts(config, rd.ToClean(), rd.handOffs, i);
    AllLoadedMeaning(rd.record, rd.handOffs, i);
    HandOffIsJustified(config, rd, h);
    LossIsProven(config, run, r, h.info.podKey);
    if NoColons(run) && ':' !in rd.Seen()[h.info.podKey].info.node.name { LostNodesSaySo(config, run, r, h.info.podKey); }
    TaintIsAttempted(config, run, r, h.info.podKey);
    if rd.alone { HandedAsSampled(config, run, r, i); }
  }

  /** The hand-off is of the recorded instance, and its clean-up did what a delete rests on. */
  ghost predicate IsJustified(config: Config, rd: Round, h: HandOff) {
    && h.pod.Some? && h.pod.value.namespace + "/" + h.pod.value.name == h.info.podKey
    && h.pod.value.uid == h.info.podUID && h.pod.value.nodeName == h.info.node.name
    && StillRecorded(rd, h)
    && DeleteJustified(Job(config, h.pod.value, h.info.node, false, false), h.run.PVs(), h.run.Flat())
    && FreshlyValidated(config, h)
  }

  lemma HandOffIsJustified(config: Config, rd: Round, h: HandOff)
    requires HandOffRun(config, h) && Loaded(rd.record, h) && h.run.delete != []
    ensures IsJustified(config, rd, h)
  {
    DeleteIsJustified(h.Task(config), h.stale, h.run);
    FreshIff(config, h);
  }

  lemma FreshIff(config: Config, h: HandOff)
    requires h.pod.Some? && DeleteJustified(Job(config, h.pod.value, h.info.node, false, false), h.run.PVs(), h.run.Flat())
    ensures FreshlyValidated(config, h)
  {
  }

  lemma HandedAsSampled(config: Config, run: seq<Round>, r: nat, i: nat)
    requires MonitorRun(config, run) && r < |run| && run[r].alone && i < |run[r].handOffs|
    ensures run[r].handOffs[i].info.podKey in run[r].Seen() && run[r].Seen()[run[r].handOffs[i].info.podKey].info == run[r].handOffs[i].info
  {
    var rd := run[r];
    RoundHands(config, run, r);
    HandedAsRecorded(rd.record.past[0].infos, rd.handOffs, i);
    AllSeenMeaning(Beginning(rd.record.past[0]), rd.turns, rd.handOffs[i].info.podKey);
  }

  lemma TaintIsAttempted(config: Config, run: seq<Round>, r: nat, podKey: string)
    requires MonitorRun(config, run) && r < |run| && podKey in run[r].ToClean()
    ensures podKey in run[r].Seen() && Attempt(config, run[r].Seen()[podKey].info.node.name, run[r].tainting)
  {
    var rd := run[r];
    RoundTaints(config, run, r);
    var node := rd.Seen()[podKey].info.node.name;
    NodesOfMeaning(rd.Seen(), rd.ToClean(), node);
    AttemptedMeaning(config.podmonTaint, rd.tainting, node);
  }

  lemma RoundTaints(config: Config, run: seq<Round>, r: nat)
    requires MonitorRun(config, run) && r < |run|
    ensures forall k :: k in run[r].ToClean() ==> k in run[r].Seen()
    ensures TaintsOnce(NodesOf(run[r].Seen(), run[r].ToClean()), config.podmonTaint, run[r].tainting)
  {
    assert FactsAt(config, run, r);
    TurnsNodes(HistoryBefore(run, r), r + 1, config.lossThreshold, run[r].turns);
  }

  lemma {:induction false} HandOffFacts(config: Config, podKeys: seq<string>, handOffs: seq<HandOff>, i: nat)
    requires HandedOver(config, podKeys, handOffs) && i < |handOffs|
    ensures HandOffRun(config, handOffs[i]) && handOffs[i].info.podKey in podKeys
  {
    var before := handOffs[..|handOffs| - 1];
    if i < |before| { HandOffFacts(config, podKeys, before, i); }
  }

  lemma {:induction false} HandedAsRecorded(start: map<string, PodInfo>, handOffs: seq<HandOff>, i: nat)
    requires Handing(start, handOffs) && i < |handOffs|
    ensures handOffs[i].info.podKey in start && start[handOffs[i].info.podKey] == handOffs[i].info
  {
    var before := handOffs[..|handOffs| - 1];
    if i < |before| { HandedAsRecorded(start, before, i); }
  }

  // ---------------------------------------------------------------- the deletes in the trace

  predicate IsDelete(e: Event) { e.Did? && e.call.DeletePod? }

  lemma HandOffDeletes(config: Config, h: HandOff, p: nat)
    requires HandOffRun(config, h) && p < |h.Log()| && IsDelete(h.Log()[p])
    ensures h.Matches() && h.run.delete == [h.Log()[p]] && p == |h.Log()| - 1
    ensures h.Log()[p].call == DeletePod(h.info.podKey, h.info.podUID, true)
  {
    assert p > 0 && h.Log()[p] == h.run.Flat()[p - 1];
    DeletesAreLast(h.Task(config), h.stale, h.run, p - 1);
  }

  /** Position p of the log of hand-offs is the end of hand-off i, and its delete. */
  ghost predicate EndOf(handOffs: seq<HandOff>, i: nat, p: nat) {
    i < |handOffs| && p < |Logs(handOffs)| && p == |Logs(handOffs[..i + 1])| - 1 && handOffs[i].run.delete == [Logs(handOffs)[p]]
  }

  lemma EndStays(before: seq<HandOff>, last: HandOff, i: nat, p: nat)
    requires EndOf(before, i, p)
    ensures EndOf(before + [last], i, p)
  {
    OneMoreHanded(before, last);
    assert before[..i + 1] == (before + [last])[..i + 1];
  }

  lemma LastEnds(config: Config, before: seq<HandOff>, last: HandOff, p: nat)
    requires HandOffRun(config, last) && |Logs(before)| <= p < |Logs(before)| + |last.Log()| && IsDelete(last.Log()[p - |Logs(before)|])
    ensures EndOf(before + [last], |before|, p)
  {
    OneMoreHanded(before, last);
    HandOffDeletes(config, last, p - |Logs(before)|);
    assert (before + [last])[..|before| + 1] == before + [last];
  }

  /** Every delete in the log of hand-offs is the one that the hand-off of its position ends with. */
  lemma {:induction false} LogsDeletes(config: Config, podKeys: seq<string>, handOffs: seq<HandOff>, p: nat) returns (i: nat)
    requires HandedOver(config, podKeys, handOffs) && p < |Logs(handOffs)| && IsDelete(Logs(handOffs)[p])
    ensures EndOf(handOffs, i, p)
  {
    var before, last := handOffs[..|handOffs| - 1], handOffs[|handOffs| - 1];
    assert handOffs == before + [last];
    if p < |Logs(before)| {
      i := LogsDeletes(config, podKeys, before, p);
      EndStays(before, last, i, p);
    } else {
      LastEnds(config, before, last, p);
      i := |before|;
    }
  }

  /** Nothing is deleted while a round samples and taints. */
  lemma RoundDeletes(config: Config, run: seq<Round>, r: nat, p: nat)
    requires MonitorRun(config, run) && r < |run| && p < |run[r].Log()| && IsDelete(run[r].Log()[p])
    ensures var rd := run[r]; var m := |TurnLogs(rd.turns) + rd.tainting|;
            p >= m && rd.Log()[p] == Logs(rd.handOffs)[p - m]
  {
    OnlyQuestionsAndTaints(config, run, r);
    RoundParts(run[r], p);
  }

  lemma OnlyQuestionsAndTaints(config: Config, run: seq<Round>, r: nat)
    requires MonitorRun(config, run) && r < |run|
    ensures OnlyValidations(TurnLogs(run[r].turns)) && forall e :: e in run[r].tainting ==> e.Did? && e.call.TaintNode?
  {
    assert FactsAt(config, run, r);
    TurnsGrow(HistoryBefore(run, r), r + 1, config.lossThreshold, run[r].turns);
    OnlyTaintsMeaning(run[r].tainting);
  }

  lemma RoundParts(rd: Round, p: nat)
    requires p < |rd.Log()|
    ensures p < |TurnLogs(rd.turns)| ==> rd.Log()[p] in TurnLogs(rd.turns)
    ensures |TurnLogs(rd.turns)| <= p < |TurnLogs(rd.turns) + rd.tainting| ==> rd.Log()[p] in rd.tainting
    ensures p >= |TurnLogs(rd.turns) + rd.tainting| ==> rd.Log()[p] == Logs(rd.handOffs)[p - |TurnLogs(rd.turns) + rd.tainting|]
  {
  }

  lemma RoundHands(config: Config, run: seq<Round>, r: nat)
    requires MonitorRun(config, run) && r < |run|
    ensures HandedOver(config, run[r].ToClean(), run[r].handOffs) && AllLoaded(run[r].record, run[r].handOffs)
    ensures run[r].record.past != [] && (run[r].alone ==> LeftAlone(run[r]))
  {
    assert FactsAt(config, run, r);
  }

  lemma {:induction false} LogPosition(run: seq<Round>, p: nat) returns (r: nat, q: nat)
    requires p < |LogOf(run)|
    ensures r < |run| && q < |run[r].Log()| && p == |LogOf(run[..r])| + q && LogOf(run)[p] == run[r].Log()[q]
  {
    var before, last := run[..|run| - 1], run[|run| - 1];
    if p < |LogOf(before)| {
      r, q := LogPosition(before, p);
      assert before[..r] == run[..r];
    } else {
      r, q := |run| - 1, p - |LogOf(before)|;
    }
  }

  /** Position p of the trace is the delete that hand-off i of round r ends with, and it is safe. */
  ghost predicate SafeAt(config: Config, run: seq<Round>, p: nat, r: nat, i: nat) {
    && r < |run| && i < |run[r].handOffs| && p < |LogOf(run)|
    && p == |LogOf(run[..r])| + |TurnLogs(run[r].turns) + run[r].tainting| + |Logs(run[r].handOffs[..i + 1])| - 1
    && run[r].handOffs[i].run.delete == [LogOf(run)[p]]
    && SafeDelete(config, run, r, run[r].handOffs[i])
  }

  /** Every delete of a pod in the trace of a run is a force delete, of the instance handed over, that ends the hand-off
      of its position, and it rests on all that SafeDelete lists. */
  lemma ForceDeletesAreSafe(config: Config, run: seq<Round>, p: nat) returns (r: nat, i: nat)
    requires MonitorRun(config, run) && p < |LogOf(run)| && IsDelete(LogOf(run)[p])
    ensures SafeAt(config, run, p, r, i)
    ensures LogOf(run)[p].call == DeletePod(run[r].handOffs[i].info.podKey, run[r].handOffs[i].info.podUID, true)
  {
    var q;
    r, q := LogPosition(run, p);
    i := RoundDeleteEnds(config, run, r, q);
    HandOffIsSafe(config, run, r, i);
    DeleteOf(config, run, r, i);
  }

  /** A delete in the log of a round is the one that the hand-off of its position ends with. */
  lemma RoundDeleteEnds(config: Config, run: seq<Round>, r: nat, q: nat) returns (i: nat)
    requires MonitorRun(config, run) && r < |run| && q < |run[r].Log()| && IsDelete(run[r].Log()[q])
    ensures i < |run[r].handOffs| && run[r].handOffs[i].run.delete == [run[r].Log()[q]]
    ensures q == |TurnLogs(run[r].turns) + run[r].tainting| + |Logs(run[r].handOffs[..i + 1])| - 1
  {
    RoundDeletes(config, run, r, q);
    i := HandsDelete(config, run, r, q - |TurnLogs(run[r].turns) + run[r].tainting|);
  }

  lemma HandsDelete(config: Config, run: seq<Round>, r: nat, p: nat) returns (i: nat)
    requires MonitorRun(config, run) && r < |run| && p < |Logs(run[r].handOffs)| && IsDelete(Logs(run[r].handOffs)[p])
    ensures EndOf(run[r].handOffs, i, p)
  {
    RoundHands(config, run, r);
    i := LogsDeletes(config, run[r].ToClean(), run[r].handOffs, p);
  }

  lemma DeleteOf(config: Config, run: seq<Round>, r: nat, i: nat)
    requires MonitorRun(config, run) && r < |run| && i < |run[r].handOffs| && run[r].handOffs[i].run.delete != []
    ensures var h := run[r].handOffs[i]; h.run.delete[0].Did? && h.run.delete[0].call == DeletePod(h.info.podKey, h.info.podUID, true)
  {
    var h := run[r].handOffs[i];
    RoundHands(config, run, r);
    HandOffFacts(config, run[r].ToClean(), run[r].handOffs, i);
    RunIsShaped(h.Task(config), h.stale, h.run);
  }

  // ---------------------------------------------------------------- no pod is deleted twice

  predicate Deletes(e: Event, podKey: string) {
    IsDelete(e) && e.call.podKey == podKey && e.err == None
  }

  lemma {:induction false} DeletedIsGone(config: Config, podKeys: seq<string>, handOffs: seq<HandOff>, p: nat, podKey: string)
    requires HandedOver(config, podKeys, handOffs) && p < |Logs(handOffs)| && Deletes(Logs(handOffs)[p], podKey)
    ensures podKey in Gone(handOffs)
  {
    var before, last := handOffs[..|handOffs| - 1], handOffs[|handOffs| - 1];
    if p < |Logs(before)| {
      DeletedIsGone(config, podKeys, before, p, podKey);
    } else {
      HandOffDeletes(config, last, p - |Logs(before)|);
    }
  }

  lemma {:induction false} LogsDeleteOnce(config: Config, start: map<string, PodInfo>, podKeys: seq<string>,
                                          handOffs: seq<HandOff>, p: nat, q: nat, podKey: string)
    requires HandedOver(config, podKeys, handOffs) && Handing(start, handOffs) && p < q < |Logs(handOffs)|
    requires Deletes(Logs(handOffs)[p], podKey)
    ensures !Deletes(Logs(handOffs)[q], podKey)
  {
    var before := handOffs[..|handOffs| - 1];
    if q < |Logs(before)| {
      LogsDeleteOnce(config, start, podKeys, before, p, q, podKey);
    } else {
      LastDeletesOnce(config, start, podKeys, before, handOffs[|handOffs| - 1], p, q, podKey);
    }
  }

  lemma LastDeletesOnce(config: Config, start: map<string, PodInfo>, podKeys: seq<string>, before: seq<HandOff>, last: HandOff,
                        p: nat, q: nat, podKey: string)
    requires HandedOver(config, podKeys, before) && HandOffRun(config, last) && last.info.podKey !in Gone(before)
    requires p < q && |Logs(before)| <= q < |Logs(before) + last.Log()| && Deletes((Logs(before) + last.Log())[p], podKey)
    ensures !Deletes((Logs(before) + last.Log())[q], podKey)
  {
    var m := |Logs(before)|;
    if Deletes(last.Log()[q - m], podKey) {
      HandOffDeletes(config, last, q - m);
      if p < m {
        DeletedIsGone(config, podKeys, before, p, podKey);
      } else {
        HandOffDeletes(config, last, p - m);
      }
    }
  }

  /** In the log of a round that is left alone no pod is deleted twice, although pods with labels may be handed over
      again and again. */
  lemma DeletedAtMostOnce(config: Config, run: seq<Round>, r: nat, p: nat, q: nat, podKey: string)
    requires MonitorRun(config, run) && r < |run| && run[r].alone && p < q < |run[r].Log()|
    requires Deletes(run[r].Log()[p], podKey)
    ensures !Deletes(run[r].Log()[q], podKey)
  {
    var rd := run[r];
    RoundDeletes(config, run, r, p);
    if Deletes(rd.Log()[q], podKey) {
      RoundDeletes(config, run, r, q);
      var m := |TurnLogs(rd.turns) + rd.tainting|;
      HandedInOrder(config, run, r);
      LogsDeleteOnce(config, rd.record.past[0].infos, rd.ToClean(), rd.handOffs, p - m, q - m, podKey);
    }
  }

  lemma HandedInOrder(config: Config, run: seq<Round>, r: nat)
    requires MonitorRun(config, run) && r < |run| && run[r].alone
    ensures run[r].record.past != [] && HandedOver(config, run[r].ToClean(), run[r].handOffs)
    ensures Handing(run[r].record.past[0].infos, run[r].handOffs)
  {
    RoundHands(config, run, r);
  }

  // ---------------------------------------------------------------- loss

  lemma RoundSorts(config: Config, run: seq<Round>, r: nat)
    requires MonitorRun(config, run) && r < |run|
    ensures Sorted(run[r].Seen(), run[r].ToClean(), run[r].history, r + 1, config.lossThreshold, TurnLogs(run[r].turns))
  {
    assert FactsAt(config, run, r);
    TurnsSort(HistoryBefore(run, r), r + 1, config.lossThreshold, run[r].turns);
  }

  lemma RoundListsLosses(config: Config, run: seq<Round>, r: nat)
    requires MonitorRun(config, run) && r < |run|
    ensures LossesListed(run[r].Seen(), run[r].ToClean(), run[r].history, r + 1, config.lossThreshold)
  {
    assert FactsAt(config, run, r);
    forall key ensures !SampledIn(Samples(HistoryBefore(run, r), key), r + 1) { assert NotSampled(HistoryBefore(run, r), key, r + 1); }
    TurnsListLosses(HistoryBefore(run, r), r + 1, config.lossThreshold, run[r].turns);
  }

  lemma LossIsProven(config: Config, run: seq<Round>, r: nat, podKey: string)
    requires MonitorRun(config, run) && r < |run| && podKey in run[r].ToClean()
    ensures podKey in run[r].Seen() && LossProven(config, run, r, run[r].Seen()[podKey].uids, run[r].Seen()[podKey].info)
  {
    RoundSorts(config, run, r);
    var s := run[r].Seen()[podKey];
    assert HasLoss(s.uids, s.info, run[r].history, r + 1, config.lossThreshold);
    var a :| 0 <= a < |s.info.arrayIDs| &&
             Lost(Samples(run[r].history, NodeKey(s.info.node.name, s.info.arrayIDs[a])), r + 1, config.lossThreshold);
    KeyLossIsProven(config, run, r, NodeKey(s.info.node.name, s.info.arrayIDs[a]));
  }

  lemma KeyLossIsProven(config: Config, run: seq<Round>, r: nat, key: string)
    requires MonitorRun(config, run) && r < |run| && Lost(Samples(run[r].history, key), r + 1, config.lossThreshold)
    ensures LossOf(config, run, r, key, Samples(run[r].history, key))
  {
    SamplesAreBacked(config, run, r + 1, key);
    BackedLoss(config, run, r, key, Samples(run[r].history, key));
  }

  lemma BackedLoss(config: Config, run: seq<Round>, r: nat, key: string, h: seq<Sample>)
    requires AllBacked(run, r + 1, key, h) && Lost(h, r + 1, config.lossThreshold)
    ensures LossOf(config, run, r, key, h)
  {
    BackedAscends(run, r + 1, key, h);
    forall i | 0 <= i < |h| ensures SampleBacked(run, key, h[i]) { BackedAt(run, r + 1, key, h, i); }
    if 0 <= config.lossThreshold { TrailingLossesMeaning(h, config.lossThreshold); }
  }

  /** When the monitor is alone, pods with equal labels are cleaned up together: some stretch of the round's hand-offs is of
      such pods only, and holds every listed one. */
  lemma AffinePodsGoTogether(config: Config, run: seq<Round>, r: nat, labels: map<string, string>) returns (a: nat, b: nat)
    requires MonitorRun(config, run) && r < |run| && run[r].alone && labels != map[]
    ensures var rd := run[r];
            && a <= b <= |rd.handOffs| && (forall k :: a <= k < b ==> rd.handOffs[k].info.affinity == labels)
            && forall podKey :: podKey in rd.ToClean() && podKey in rd.Seen() && rd.Seen()[podKey].info.affinity == labels ==>
                                  exists k :: a <= k < b && rd.handOffs[k].info.podKey == podKey
  {
    var rd := run[r];
    RoundHands(config, run, r);
    var start := rd.record.past[0].infos;
    a, b := HandOffs.AffinePodsGoTogether(start, rd.ToClean(), rd.handOffs, labels);
    forall k | a <= k < b ensures rd.handOffs[k].info.affinity == labels { HandedAsRecorded(start, rd.handOffs, k); }
    forall podKey | podKey in rd.ToClean() && podKey in rd.Seen() && rd.Seen()[podKey].info.affinity == labels
      ensures exists k :: a <= k < b && rd.handOffs[k].info.podKey == podKey
    {
      AllSeenMeaning(Beginning(rd.record.past[0]), rd.turns, podKey);
      assert IsHanded(rd.handOffs, a, b, podKey);
    }
  }

  /** No pod is handed over but the listed ones, and hand-offs number at most n * n; when the monitor is alone, every
      record gets a turn and every listed pod is handed over. A sampled pod that is not listed has an excuse for each of
      its arrays. */
  lemma RoundsCoverTheirPods(config: Config, run: seq<Round>, r: nat, podKey: string)
    requires MonitorRun(config, run) && r < |run|
    ensures var rd := run[r];
            && ((exists i :: 0 <= i < |rd.handOffs| && rd.handOffs[i].info.podKey == podKey) ==> podKey in rd.ToClean())
            && rd.record.past != []
            && (rd.alone ==> (podKey in rd.Seen() <==> podKey in rd.record.past[0].infos))
            && (rd.alone && podKey in rd.ToClean() ==> exists i :: 0 <= i < |rd.handOffs| && rd.handOffs[i].info.podKey == podKey)
            && |rd.handOffs| <= |rd.ToClean()| * |rd.ToClean()|
            && (podKey in rd.Seen() && podKey !in rd.ToClean() ==>
                  AllExcused(rd.Seen()[podKey].uids, rd.Seen()[podKey].info, rd.history, r + 1, config.lossThreshold, TurnLogs(rd.turns)))
  {
    var rd := run[r];
    RoundHands(config, run, r);
    RoundSorts(config, run, r);
    AtMostSquare(config, run, r);
    if exists i :: 0 <= i < |rd.handOffs| && rd.handOffs[i].info.podKey == podKey {
      var i :| 0 <= i < |rd.handOffs| && rd.handOffs[i].info.podKey == podKey;
      HandOffFacts(config, rd.ToClean(), rd.handOffs, i);
    } else if rd.alone && podKey in rd.ToClean() {
      GroupsCover(rd.record.past[0].infos, rd.ToClean(), rd.handOffs, podKey);
    }
  }

  lemma AtMostSquare(config: Config, run: seq<Round>, r: nat)
    requires MonitorRun(config, run) && r < |run|
    ensures |run[r].handOffs| <= |run[r].ToClean()| * |run[r].ToClean()|
  {
    assert FactsAt(config, run, r);
  }
}
