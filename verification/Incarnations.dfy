/** Samples are counted under a node's name, whatever its UID: what a declared loss says of the node that is there now. */
module Incarnations {
  import opened Kube
  import opened World
  import opened Monitor
  import opened Connectivity
  import ControllerCleanup
  import opened ControllerHandler
  import opened ArrayMonitor
  import opened HandOffs
  import opened MonitorSafety
  import opened InterleavedRounds

  /** The length of the longest suffix of samples of this incarnation that are all disconnected. */
  function OwnLosses(h: seq<Sample>, uid: string): nat {
    if h == [] || h[|h| - 1].connected || h[|h| - 1].uid != uid then 0 else 1 + OwnLosses(h[..|h| - 1], uid)
  }

  /** At least n samples of this incarnation close the history with losses exactly when its last n samples are all such. */
  lemma {:induction false} OwnLossesMeaning(h: seq<Sample>, uid: string, n: nat)
    ensures OwnLosses(h, uid) <= |h|
    ensures OwnLosses(h, uid) >= n <==> n <= |h| && forall i :: |h| - n <= i < |h| ==> !h[i].connected && h[i].uid == uid
  {
    if h != [] && !h[|h| - 1].connected && h[|h| - 1].uid == uid {
      var before := h[..|h| - 1];
      OwnLossesMeaning(before, uid, if n == 0 then 0 else n - 1);
      if n > 0 && OwnLosses(h, uid) < n && n <= |h| {
        var i :| |before| - (n - 1) <= i < |before| && !(!before[i].connected && before[i].uid == uid);
        assert h[i] == before[i];
      }
    } else if h != [] && n > 0 {
      assert !(!h[|h| - 1].connected && h[|h| - 1].uid == uid);
    }
  }

  /** The node changed its UID within the last n samples. */
  predicate ChangedWithin(h: seq<Sample>, n: int) {
    exists i :: 0 <= i < |h| && |h| - n <= i && h[i].uid != h[|h| - 1].uid
  }

  /** Whenever a key is declared lost, the samples tell of the current node of some sampled record; and that incarnation was
      itself found disconnected threshold times in a row exactly when the UID did not change within the last threshold
      samples. */
  lemma LossOfIncarnation(config: Config, run: seq<Round>, r: nat, key: string)
    requires MonitorRun(config, run) && r < |run| && Lost(Samples(run[r].history, key), r + 1, config.lossThreshold)
    ensures var h := Samples(run[r].history, key); var uid := h[|h| - 1].uid;
            && AskedAbout(run[r].Seen(), key, uid)
            && (OwnLosses(h, uid) >= config.lossThreshold <==> !ChangedWithin(h, config.lossThreshold))
  {
    RoundListsLosses(config, run, r);
    var h := Samples(run[r].history, key);
    if config.lossThreshold >= 0 {
      TrailingLossesMeaning(h, config.lossThreshold);
      OwnLossesMeaning(h, h[|h| - 1].uid, config.lossThreshold);
    }
  }

  // ---------------------------------------------------------------- a node that was created again

  const TWICE := Config(false, true, false, 1, 2, "podmon", "podmon-driver")
  const FIRST_NODE := Node("n1", "first", "csi1", [])
  const SECOND_NODE := Node("n1", "second", "csi1", [])
  const FIRST_RECORD := PodInfo(KEY, FIRST_NODE, "old", [DEFAULT_ARRAY], map[])
  const SECOND_RECORD := PodInfo(KEY, SECOND_NODE, "old", [DEFAULT_ARRAY], map[])
  const READING_FIRST := Handling(Added, KEY, "old", Some(OLD_POD), Some(FIRST_NODE), Ok([]), 0, None)
  const READING_SECOND := Handling(Modified, KEY, "old", Some(OLD_POD), Some(SECOND_NODE), Ok([]), 0, None)

  const FIRST_TABLES := Tables(map[KEY := FIRST_RECORD], map["n1" := "first"])
  const SECOND_TABLES := Tables(map[KEY := SECOND_RECORD], map["n1" := "second"])

  const ONE := [Sample(1, DEFAULT_ARRAY, false, "first")]
  const TWO := [Sample(1, DEFAULT_ARRAY, false, "first"), Sample(2, DEFAULT_ARRAY, false, "second")]
  const ONE_HISTORY: History := map[LOST_KEY := ONE]
  const TWO_HISTORY: History := map[LOST_KEY := TWO]
  const FIRST_TURN := Turn(Seen(FIRST_RECORD, FIRST_TABLES.uids, 0), ASKED, ONE_HISTORY, true)
  const SECOND_TURN := Turn(Seen(SECOND_RECORD, SECOND_TABLES.uids, 0), ASKED, TWO_HISTORY, false)

  /** The pod is gone by the time it is handed over. */
  const NOT_THERE := HandOff(SECOND_RECORD, 0, None, 0, false, ControllerCleanup.NO_RUN)
  const FIRST_ROUND := Round(false, Chronicle([EMPTY, FIRST_TABLES], [ByHandler(READING_FIRST)]), Beginning(FIRST_TABLES),
                             [FIRST_TURN], ONE_HISTORY, [], [])
  const SECOND_ROUND := Round(false, Chronicle([FIRST_TABLES, SECOND_TABLES], [ByHandler(READING_SECOND)]), Beginning(SECOND_TABLES),
                              [SECOND_TURN], TWO_HISTORY, [Did(TaintNode("n1", "podmon", "NoSchedule", false), None)], [NOT_THERE])

  lemma BothAreTold()
    ensures Told(TWICE, FIRST_ROUND.between) && Told(TWICE, SECOND_ROUND.between)
  {
    KeyIsPodKey();
    BothAreReady();
    assert READING_FIRST.Infos(TWICE, map[]) == map[KEY := FIRST_RECORD] && READING_FIRST.UIDs(map[]) == map["n1" := "first"];
    assert READING_SECOND.Infos(TWICE, FIRST_TABLES.infos) == map[KEY := SECOND_RECORD];
    assert READING_SECOND.UIDs(FIRST_TABLES.uids) == map["n1" := "second"];
    OneChangeIsTold(TWICE, EMPTY, FIRST_TABLES, ByHandler(READING_FIRST));
    OneChangeIsTold(TWICE, FIRST_TABLES, SECOND_TABLES, ByHandler(READING_SECOND));
  }

  lemma Histories()
    ensures forall key :: Samples(ONE_HISTORY, key) == if key == LOST_KEY then ONE else []
    ensures forall key :: Samples(TWO_HISTORY, key) == if key == LOST_KEY then TWO else []
    ensures TrailingLosses(ONE) == 1 && TrailingLosses(TWO) == 2
  {
    assert ONE[..0] == [] && TWO[..1] == ONE;
  }

  lemma FirstIsTaken()
    ensures TurnTaken(map[], 1, 2, FIRST_TURN)
  {
    Histories();
    OneKey(FIRST_RECORD, DEFAULT_ARRAY);
    assert ASKED[0] in ASKED && Backed(LOST_KEY, ONE[0], ASKED);
    forall key ensures GrowsAt(map[], ONE_HISTORY, key, 1, ASKED) && LossAt(FIRST_TABLES.uids, FIRST_RECORD, key, map[], ONE_HISTORY, 1, 2, true) {
      if key == LOST_KEY { assert ONE[..0] == []; } else { assert Samples(ONE_HISTORY, key) == []; }
    }
  }

  lemma SecondIsTaken()
    ensures TurnTaken(ONE_HISTORY, 2, 2, SECOND_TURN)
  {
    Histories();
    OneKey(SECOND_RECORD, DEFAULT_ARRAY);
    assert ASKED[0] in ASKED && Backed(LOST_KEY, TWO[1], ASKED) && TWO[..1] == ONE;
    assert Lost(Samples(TWO_HISTORY, NodeKey(SECOND_RECORD.node.name, SECOND_RECORD.arrayIDs[0])), 2, 2);
    forall key ensures GrowsAt(ONE_HISTORY, TWO_HISTORY, key, 2, ASKED) && LossAt(SECOND_TABLES.uids, SECOND_RECORD, key, ONE_HISTORY, TWO_HISTORY, 2, 2, false) {
      if key != LOST_KEY { assert Samples(ONE_HISTORY, key) == [] && Samples(TWO_HISTORY, key) == []; }
    }
  }

  /** One turn, and nothing else about its record. */
  lemma SingleTurn(before: History, round: nat, threshold: int, r: Chronicle, t: Turn)
    requires TurnTaken(before, round, threshold, t) && SeenAt(r, t.sight.info.podKey, t.sight)
    ensures Taken(before, round, threshold, [t]) && AllSeen(r, [t]) && HistoryAfter(before, [t]) == t.history
    ensures Disconnected([t]) == (if t.connected then [] else [t.sight.info.podKey])
    ensures NodesOfTurns([t]) == (if t.connected then {} else {t.sight.info.node.name})
  {
    assert [t][..0] == [];
    assert Taken(before, round, threshold, []) && HistoryAfter(before, []) == before && AllSeen(r, []);
    assert Disconnected([]) == [] && NodesOfTurns([]) == {};
  }

  lemma FirstRoundIsPossible()
    ensures RoundFacts(TWICE, 1, map[], FIRST_ROUND)
  {
    KeyIsPodKey();
    FirstIsTaken();
    SingleTurn(map[], 1, 2, FIRST_ROUND.record, FIRST_TURN);
    FactsOf(TWICE, FIRST_ROUND);
  }

  lemma SecondHandOffIsPossible()
    ensures HandedOver(TWICE, [KEY], [NOT_THERE]) && AllLoaded(SECOND_ROUND.record, [NOT_THERE])
  {
    assert [NOT_THERE][..0] == [] && HandedOver(TWICE, [KEY], []) && AllLoaded(SECOND_ROUND.record, []);
  }

  lemma SecondRoundIsPossible()
    ensures RoundFacts(TWICE, 2, ONE_HISTORY, SECOND_ROUND)
  {
    KeyIsPodKey();
    SecondIsTaken();
    SingleTurn(ONE_HISTORY, 2, 2, SECOND_ROUND.record, SECOND_TURN);
    NodeIsTainted();
    SecondHandOffIsPossible();
    Histories();
    assert forall key :: NotSampled(ONE_HISTORY, key, 2);
  }

  lemma BothRounds()
    ensures MonitorRun(TWICE, [FIRST_ROUND, SECOND_ROUND])
  {
    FirstRoundIsPossible();
    SecondRoundIsPossible();
    OneRound(TWICE, FIRST_ROUND);
    var run := [FIRST_ROUND] + [SECOND_ROUND];
    assert HistoryBefore(run, 1) == ONE_HISTORY;
    assert FactsAt(TWICE, run, 1);
    RunOn(TWICE, [FIRST_ROUND], SECOND_ROUND);
    assert run == [FIRST_ROUND, SECOND_ROUND];
  }

  lemma BothAreLinked()
    ensures Linked(TWICE, [FIRST_ROUND, SECOND_ROUND])
  {
    BothAreTold();
    var run := [FIRST_ROUND, SECOND_ROUND];
    assert run[..1] == [FIRST_ROUND] && [FIRST_ROUND][..0] == [];
    assert Linked(TWICE, []) && Linked(TWICE, [FIRST_ROUND]);
  }

  /** With a threshold of two samples, a node that was created again is declared lost on the first sample of its own. */
  lemma RecreatedNodeIsLostAtOnce()
    ensures var run := [FIRST_ROUND, SECOND_ROUND];
            && MonitorRun(TWICE, run) && Linked(TWICE, run) && run[0].between.past[0] == Tables(map[], map[])
            && KEY in run[1].ToClean() && run[1].Seen()[KEY].info == SECOND_RECORD
            && Lost(Samples(run[1].history, LOST_KEY), 2, TWICE.lossThreshold)
            && OwnLosses(Samples(run[1].history, LOST_KEY), SECOND_NODE.uid) == 1 < TWICE.lossThreshold
  {
    BothRounds();
    BothAreLinked();
    Histories();
    SecondIsTaken();
    SingleTurn(ONE_HISTORY, 2, 2, SECOND_ROUND.record, SECOND_TURN);
    assert TWO[..1] == ONE && OwnLosses(ONE, "second") == 0;
    assert [SECOND_TURN][..0] == [] && Sighted([]) == map[];
  }
}
