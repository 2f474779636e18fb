/** Rounds during which watch events are handled: the monitor loads every record anew before it hands it over, and by
    then it may be another one than was sampled. */
module InterleavedRounds {
  import opened Kube
  import opened World
  import opened Monitor
  import opened Connectivity
  import opened ControllerCleanup
  import opened CleanupSafety
  import opened ControllerHandler
  import opened ArrayMonitor
  import opened HandOffs
  import opened Promises
  import opened MonitorSafety

  /** Some listed record was sampled as lost under one of this record's node/array keys. */
  ghost predicate SharesLostKey(config: Config, run: seq<Round>, r: nat, info: PodInfo)
    requires r < |run|
  {
    exists k, key :: k in run[r].ToClean() && k in run[r].Seen() && HasKey(run[r].Seen()[k].info, key) && HasKey(info, key) &&
                     Lost(Samples(run[r].history, key), r + 1, config.lossThreshold)
  }

  lemma LossesAreListed(config: Config, run: seq<Round>, r: nat, key: string)
    requires MonitorRun(config, run) && r < |run| && Lost(Samples(run[r].history, key), r + 1, config.lossThreshold)
    ensures ListedKey(run[r].Seen(), run[r].ToClean(), key)
  {
    RoundListsLosses(config, run, r);
  }

  /** A key's loss is proven exactly when it is lost in the sense of the sampling. */
  lemma LossOfIff(config: Config, run: seq<Round>, r: nat, key: string)
    requires MonitorRun(config, run) && r < |run|
    ensures LossOf(config, run, r, key, Samples(run[r].history, key)) <==>
            Lost(Samples(run[r].history, key), r + 1, config.lossThreshold)
  {
    var h := Samples(run[r].history, key);
    if Lost(h, r + 1, config.lossThreshold) {
      KeyLossIsProven(config, run, r, key);
    } else if LossOf(config, run, r, key, h) && config.lossThreshold >= 0 {
      TrailingLossesMeaning(h, config.lossThreshold);
    }
  }

  /** For a record that is handed over, sampled or not, the loss is proven exactly when its node copy is current and one
      of its node/array keys is lost and belongs to a listed record too. */
  lemma LossIsProvenIff(config: Config, run: seq<Round>, r: nat, uids: map<string, string>, info: PodInfo)
    requires MonitorRun(config, run) && r < |run|
    ensures LossProven(config, run, r, uids, info) <==> Current(uids, info.node) && SharesLostKey(config, run, r, info)
  {
    var history := run[r].history;
    if LossProven(config, run, r, uids, info) {
      var a :| 0 <= a < |info.arrayIDs| &&
               LossOf(config, run, r, NodeKey(info.node.name, info.arrayIDs[a]), Samples(history, NodeKey(info.node.name, info.arrayIDs[a])));
      var key := NodeKey(info.node.name, info.arrayIDs[a]);
      LossOfIff(config, run, r, key);
      LossesAreListed(config, run, r, key);
      assert HasKey(info, key);
    }
    if Current(uids, info.node) && SharesLostKey(config, run, r, info) {
      var k, key :| k in run[r].ToClean() && k in run[r].Seen() && HasKey(run[r].Seen()[k].info, key) && HasKey(info, key) &&
                    Lost(Samples(history, key), r + 1, config.lossThreshold);
      var a :| 0 <= a < |info.arrayIDs| && NodeKey(info.node.name, info.arrayIDs[a]) == key;
      LossOfIff(config, run, r, key);
    }
  }

  lemma SameNode(a: string, b: string, arrayID: string)
    ensures NodeKey(a, arrayID) == NodeKey(b, arrayID) <==> a == b
  {
    var x, y := NodeKey(a, arrayID), NodeKey(b, arrayID);
    if x == y {
      assert |a| == |b|;
      assert a == x[..|a|] && b == y[..|b|];
    }
  }

  lemma OneKey(info: PodInfo, arrayID: string)
    requires info.arrayIDs == [arrayID]
    ensures forall key :: HasKey(info, key) <==> key == NodeKey(info.node.name, arrayID)
  {
    assert info.arrayIDs[0] == arrayID;
  }

  lemma ListedIsLost(config: Config, run: seq<Round>, r: nat, k: string, arrayID: string)
    requires MonitorRun(config, run) && r < |run| && k in run[r].ToClean()
    requires k in run[r].Seen() ==> run[r].Seen()[k].info.arrayIDs == [arrayID]
    ensures k in run[r].Seen()
    ensures Lost(Samples(run[r].history, NodeKey(run[r].Seen()[k].info.node.name, arrayID)), r + 1, config.lossThreshold)
  {
    RoundSorts(config, run, r);
  }

  /** With one array, as the watch handler records it: the loss is proven for the record handed over exactly when its
      node copy is current and some listed record was sampled on the same node. */
  lemma OnOneArray(config: Config, run: seq<Round>, r: nat, uids: map<string, string>, info: PodInfo, arrayID: string)
    requires MonitorRun(config, run) && r < |run| && info.arrayIDs == [arrayID]
    requires forall k :: k in run[r].Seen() ==> run[r].Seen()[k].info.arrayIDs == [arrayID]
    ensures LossProven(config, run, r, uids, info) <==>
            Current(uids, info.node) &&
            exists k :: k in run[r].ToClean() && k in run[r].Seen() && run[r].Seen()[k].info.node.name == info.node.name
  {
    LossIsProvenIff(config, run, r, uids, info);
    OneKey(info, arrayID);
    var rd := run[r];
    if SharesLostKey(config, run, r, info) {
      var k, key :| k in rd.ToClean() && k in rd.Seen() && HasKey(rd.Seen()[k].info, key) && HasKey(info, key) &&
                    Lost(Samples(rd.history, key), r + 1, config.lossThreshold);
      OneKey(rd.Seen()[k].info, arrayID);
      SameNode(rd.Seen()[k].info.node.name, info.node.name, arrayID);
    }
    if k :| k in rd.ToClean() && k in rd.Seen() && rd.Seen()[k].info.node.name == info.node.name {
      ListedIsLost(config, run, r, k, arrayID);
      OneKey(rd.Seen()[k].info, arrayID);
    }
  }

  // ---------------------------------------------------------------- a replaced record

  const CONFIG := Config(false, true, false, 1, 1, "podmon", "podmon-driver")
  const READY_NOW := [Condition(READY, true)]
  const LOST_NODE := Node("n1", "uid1", "csi1", [])
  const OTHER_NODE := Node("n2", "uid2", "csi2", [])
  const OLD_POD := Pod("ns", "p", "old", "n1", "", Running, READY_NOW, [], map[])
  const NEW_POD := Pod("ns", "p", "new", "n2", "", Running, READY_NOW, [], map[])
  const KEY := PodKey("ns", "p")
  const SAMPLED := PodInfo(KEY, LOST_NODE, "old", [DEFAULT_ARRAY], map[])
  const REPLACED := PodInfo(KEY, OTHER_NODE, "new", [DEFAULT_ARRAY], map[])

  /** The pod is ready, on a node without taints, and has no volumes. */
  const STORING := Handling(Added, KEY, "old", Some(OLD_POD), Some(LOST_NODE), Ok([]), 0, None)
  const REPLACING := Handling(Added, KEY, "new", Some(NEW_POD), Some(OTHER_NODE), Ok([]), 0, None)

  const EMPTY := Tables(map[], map[])
  const BEFORE := Tables(map[KEY := SAMPLED], map["n1" := "uid1"])
  const AFTER := Tables(map[KEY := REPLACED], map["n1" := "uid1", "n2" := "uid2"])

  const LOSS := [Sample(1, DEFAULT_ARRAY, false, "uid1")]
  const LOST_KEY := NodeKey("n1", DEFAULT_ARRAY)
  const HISTORY: History := map[LOST_KEY := LOSS]
  const ASKED := [Validated("n1", "csi1", [], Ok(Reply(false, false)))]
  const TURN := Turn(Seen(SAMPLED, BEFORE.uids, 0), ASKED, HISTORY, false)

  /** The driver connection is gone by the time of the clean-up. */
  const CLEANUP := Run([PVsRead(KEY, Ok([]), 0)], [], [DriverConnected(AtValidation, false)], [DriverConnected(AtFencing, false)], [],
                       [Did(TaintNode("n2", "podmon", "NoSchedule", false), None)], [], [Did(DeletePod(KEY, "new", true), None)])
  const HAND_OFF := HandOff(REPLACED, 1, Some(NEW_POD), 1, false, CLEANUP)
  const ROUND := Round(false, Chronicle([EMPTY, BEFORE], [ByHandler(STORING)]), Chronicle([BEFORE, AFTER], [ByHandler(REPLACING)]),
                       [TURN], HISTORY, [Did(TaintNode("n1", "podmon", "NoSchedule", false), None)], [HAND_OFF])

  lemma KeyIsPodKey()
    ensures IsPodKey(KEY) && KeyOf(OLD_POD) == KEY && KeyOf(NEW_POD) == KEY
  {
    SplitUndoesJoin("ns", "p");
  }

  lemma BothAreReady()
    ensures IsReady(OLD_POD) && IsReady(NEW_POD)
  {
    assert IsLastOfKind(READY_NOW, READY, 0) && READY_NOW[0].isTrue;
  }

  lemma OneChangeIsTold(c: Config, t0: Tables, t1: Tables, ch: Change)
    requires Fair(ch) && t1 == Changed(c, t0, ch)
    ensures Told(c, Chronicle([t0, t1], [ch]))
  {
    var r := Chronicle([t0, t1], [ch]);
    assert r.past[..1] == [t0] && r.changes[..0] == [];
    assert Told(c, Chronicle([t0], []));
  }

  lemma FirstIsStored()
    ensures Told(CONFIG, ROUND.between)
  {
    KeyIsPodKey();
    BothAreReady();
    assert STORING.Infos(CONFIG, map[]) == map[KEY := SAMPLED] && STORING.UIDs(map[]) == map["n1" := "uid1"];
    OneChangeIsTold(CONFIG, EMPTY, BEFORE, ByHandler(STORING));
  }

  lemma SecondReplacesIt()
    ensures Told(CONFIG, ROUND.record)
  {
    KeyIsPodKey();
    BothAreReady();
    assert REPLACING.Infos(CONFIG, BEFORE.infos) == map[KEY := REPLACED];
    assert REPLACING.UIDs(BEFORE.uids) == map["n1" := "uid1", "n2" := "uid2"];
    OneChangeIsTold(CONFIG, BEFORE, AFTER, ByHandler(REPLACING));
  }

  lemma OneLoss()
    ensures TrailingLosses(LOSS) == 1 && Lost(LOSS, 1, 1)
    ensures forall key :: Samples(HISTORY, key) == if key == LOST_KEY then LOSS else []
  {
    assert LOSS[..0] == [];
  }

  lemma SamplingGrows()
    ensures SamplesGrow(map[], HISTORY, 1, ASKED)
  {
    OneLoss();
    assert ASKED[0] in ASKED && Backed(LOST_KEY, LOSS[0], ASKED);
    forall key ensures GrowsAt(map[], HISTORY, key, 1, ASKED) {
      if key == LOST_KEY { assert LOSS[..0] == []; }
    }
  }

  lemma OneTurn()
    ensures TurnTaken(map[], 1, 1, TURN)
  {
    SamplingGrows();
    OneLoss();
    OneKey(SAMPLED, DEFAULT_ARRAY);
    assert Lost(Samples(HISTORY, NodeKey(SAMPLED.node.name, SAMPLED.arrayIDs[0])), 1, 1);
    forall key ensures LossAt(BEFORE.uids, SAMPLED, key, map[], HISTORY, 1, 1, false) {
      if key != LOST_KEY { assert Samples(HISTORY, key) == []; }
    }
  }

  lemma OneTurnIsTaken()
    ensures Taken(map[], 1, 1, [TURN]) && AllSeen(ROUND.record, [TURN])
    ensures Disconnected([TURN]) == [KEY] && NodesOfTurns([TURN]) == {"n1"}
  {
    OneTurn();
    assert [TURN][..0] == [];
    assert Taken(map[], 1, 1, []) && HistoryAfter(map[], []) == map[] && AllSeen(ROUND.record, []);
    assert Disconnected([]) == [] && NodesOfTurns([]) == {};
  }

  lemma NodeIsTainted()
    ensures TaintsOnce({"n1"}, "podmon", ROUND.tainting)
  {
    assert ROUND.tainting[..0] == [] && Attempted("podmon", []) == {};
  }

  lemma CleanupIsPossible()
    ensures CleanupRun(HAND_OFF.Task(CONFIG), false, CLEANUP)
  {
    KeyIsPodKey();
    assert CLEANUP.PVs() == [] && VolumeIDs([]) == [] && Names([]) == [];
  }

  lemma HandOffIsPossible()
    ensures HandedOver(CONFIG, [KEY], [HAND_OFF]) && AllLoaded(ROUND.record, [HAND_OFF])
  {
    CleanupIsPossible();
    KeyIsPodKey();
    assert [HAND_OFF][..0] == [] && HandedOver(CONFIG, [KEY], []) && AllLoaded(ROUND.record, []);
  }

  lemma FactsOf(config: Config, rd: Round)
    requires Told(config, rd.record) && KeyedInfos(rd.record.past[0].infos)
    requires Taken(map[], 1, config.lossThreshold, rd.turns) && rd.history == HistoryAfter(map[], rd.turns) && AllSeen(rd.record, rd.turns)
    requires TaintsOnce(NodesOfTurns(rd.turns), config.podmonTaint, rd.tainting)
    requires HandedOver(config, rd.ToClean(), rd.handOffs) && AllLoaded(rd.record, rd.handOffs)
    requires !rd.alone && |rd.handOffs| <= |rd.ToClean()| * |rd.ToClean()|
    ensures RoundFacts(config, 1, map[], rd)
  {
    assert forall key :: NotSampled(map[], key, 1);
  }

  lemma OneRound(config: Config, rd: Round)
    requires RoundFacts(config, 1, map[], rd)
    ensures MonitorRun(config, [rd])
  {
    assert HistoryBefore([rd], 0) == map[];
    assert forall r :: 0 <= r < |[rd]| ==> FactsAt(config, [rd], r);
  }

  lemma RoundIsPossible()
    ensures RoundFacts(CONFIG, 1, map[], ROUND)
  {
    SecondReplacesIt();
    KeyIsPodKey();
    OneTurnIsTaken();
    NodeIsTainted();
    HandOffIsPossible();
    FactsOf(CONFIG, ROUND);
  }

  lemma RoundIsLinked()
    ensures Linked(CONFIG, [ROUND])
  {
    FirstIsStored();
    assert [ROUND][..0] == [];
  }

  lemma NothingIsProven()
    ensures !LossProven(CONFIG, [ROUND], 0, AFTER.uids, REPLACED)
  {
    OneLoss();
    SameNode("n1", "n2", DEFAULT_ARRAY);
  }

  /** A pod that is created again on another node after the sampling is force deleted although nothing was ever asked
      about its own node. Both records are what the watch handler stored, starting from none. */
  lemma ReplacedRecordIsDeletedUnproven()
    ensures MonitorRun(CONFIG, [ROUND]) && Linked(CONFIG, [ROUND]) && ROUND.between.past[0] == Tables(map[], map[])
    ensures ROUND.record.changes == [ByHandler(REPLACING)] && ROUND.handOffs == [HAND_OFF]
    ensures HAND_OFF.run.delete == [Did(DeletePod(KEY, "new", true), None)]
    ensures !LossProven(CONFIG, [ROUND], 0, ROUND.record.past[HAND_OFF.loaded].uids, HAND_OFF.info)
  {
    RoundIsPossible();
    RoundIsLinked();
    NothingIsProven();
    OneRound(CONFIG, ROUND);
  }
}
