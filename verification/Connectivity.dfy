/** The array connectivity cache: a counter and a flag per node/array key stand for an unbounded sample history. */
module Connectivity {
  import opened Kube
  import opened World
  import opened Monitor

  /** One answered question about a key: the poll round it was asked in, and the UID of the node it was asked about. */
  datatype Sample = Sample(round: nat, arrayID: string, connected: bool, uid: string)

  type History = map<string, seq<Sample>>

  function NodeKey(node: string, arrayID: string): string {
    node + ":" + arrayID
  }

  function Samples(history: History, key: string): seq<Sample> {
    if key in history then history[key] else []
  }

  /** The length of the longest all-disconnected suffix. */
  function TrailingLosses(h: seq<Sample>): nat {
    if h == [] || h[|h| - 1].connected then 0 else 1 + TrailingLosses(h[..|h| - 1])
  }

  predicate SampledIn(h: seq<Sample>, round: nat) {
    h != [] && h[|h| - 1].round == round
  }

  /** Connectivity loss: a sample from this round closes at least threshold disconnected ones in a row. */
  ghost predicate Lost(h: seq<Sample>, round: nat, threshold: int) {
    SampledIn(h, round) && TrailingLosses(h) >= threshold
  }

  ghost predicate Ascending(h: seq<Sample>, round: nat) {
    && (forall i, j :: 0 <= i < j < |h| ==> h[i].round < h[j].round)
    && (forall i :: 0 <= i < |h| ==> h[i].round <= round)
  }

  /** What TrailingLosses means: at least n losses close the history exactly when its last n samples all failed. */
  lemma {:induction false} TrailingLossesMeaning(h: seq<Sample>, n: nat)
    ensures TrailingLosses(h) <= |h|
    ensures TrailingLosses(h) >= n <==> n <= |h| && forall i :: |h| - n <= i < |h| ==> !h[i].connected
  {
    if h != [] && !h[|h| - 1].connected {
      var before := h[..|h| - 1];
      TrailingLossesMeaning(before, if n == 0 then 0 else n - 1);
      if n > 0 && TrailingLosses(h) < n && n <= |h| {
        var i :| |before| - (n - 1) <= i < |before| && before[i].connected;
        assert h[i].connected;
      }
    } else if h != [] && n > 0 {
      assert h[|h| - 1].connected;
    }
  }

  /** In a round a history stays as it is, or gains the round's one sample. */
  ghost predicate Gains(before: seq<Sample>, after: seq<Sample>, round: nat) {
    after == before ||
    (!SampledIn(before, round) && |after| == |before| + 1 && after[..|before|] == before && SampledIn(after, round))
  }

  function LossCount(lossCounts: map<string, int>, key: string): int {
    if key in lossCounts then lossCounts[key] else 0
  }

  predicate IsSampled(sampled: map<string, bool>, key: string) {
    key in sampled && sampled[key]
  }

  ghost predicate AgreeOn(key: string, sampled: map<string, bool>, lossCounts: map<string, int>, h: seq<Sample>, round: nat) {
    && LossCount(lossCounts, key) == TrailingLosses(h)
    && (IsSampled(sampled, key) <==> SampledIn(h, round))
    && Ascending(h, round)
  }

  /** For every key, counter and flag say what its history says. */
  ghost predicate Agree(sampled: map<string, bool>, lossCounts: map<string, int>, history: History, round: nat) {
    forall key :: AgreeOn(key, sampled, lossCounts, Samples(history, key), round)
  }

  lemma LossesOn(before: seq<Sample>, x: Sample)
    ensures TrailingLosses(before + [x]) == if x.connected then 0 else 1 + TrailingLosses(before)
  {
    assert (before + [x])[..|before|] == before;
  }

  lemma AscendingOn(before: seq<Sample>, x: Sample)
    requires Ascending(before, x.round) && !SampledIn(before, x.round)
    ensures Ascending(before + [x], x.round)
  {
    if before != [] { assert before[|before| - 1].round < x.round; }
  }

  lemma SampleAdded(key: string, sampled: map<string, bool>, lossCounts: map<string, int>, before: seq<Sample>, x: Sample)
    requires AgreeOn(key, sampled, lossCounts, before, x.round) && !SampledIn(before, x.round)
    ensures AgreeOn(key, sampled[key := true],
                    lossCounts[key := if x.connected then 0 else LossCount(lossCounts, key) + 1], before + [x], x.round)
  {
    LossesOn(before, x);
    AscendingOn(before, x);
  }

  ghost function WithSample(history: History, key: string, x: Sample): History {
    history[key := Samples(history, key) + [x]]
  }

  lemma RecordingAgrees(sampled: map<string, bool>, lossCounts: map<string, int>, history: History, key: string, x: Sample)
    requires Agree(sampled, lossCounts, history, x.round) && !SampledIn(Samples(history, key), x.round)
    ensures Agree(sampled[key := true],
                  lossCounts[key := if x.connected then 0 else LossCount(lossCounts, key) + 1],
                  WithSample(history, key, x), x.round)
  {
    var sampled1 := sampled[key := true];
    var lossCounts1 := lossCounts[key := if x.connected then 0 else LossCount(lossCounts, key) + 1];
    forall k ensures AgreeOn(k, sampled1, lossCounts1, Samples(WithSample(history, key, x), k), x.round) {
      assert AgreeOn(k, sampled, lossCounts, Samples(history, k), x.round);
      if k == key {
        SampleAdded(k, sampled, lossCounts, Samples(history, k), x);
      } else {
        OtherUntouched(k, sampled, sampled1, lossCounts, lossCounts1, Samples(history, k), x.round);
      }
    }
  }

  lemma OtherUntouched(k: string, sampled: map<string, bool>, sampled1: map<string, bool>, lossCounts: map<string, int>,
                       lossCounts1: map<string, int>, h: seq<Sample>, round: nat)
    requires AgreeOn(k, sampled, lossCounts, h, round)
    requires IsSampled(sampled, k) == IsSampled(sampled1, k) && LossCount(lossCounts, k) == LossCount(lossCounts1, k)
    ensures AgreeOn(k, sampled1, lossCounts1, h, round)
  {
  }

  class ConnectivityCache {
    var initialized: bool               // initOnce has run
    var sampled: map<string, bool>      // nodeArrayConnectivitySampled
    var lossCounts: map<string, int>    // nodeArrayConnectivityLossCount
    ghost var round: nat
    ghost var history: History

    /** The maps hold exactly what the history says. */
    ghost predicate Valid()
      reads this
    {
      && (!initialized ==> sampled == map[] && lossCounts == map[] && history == map[])
      && Agree(sampled, lossCounts, history, round)
    }

    constructor ()
      ensures Valid() && !initialized && round == 0 && history == map[]
    {
      initialized, sampled, lossCounts := false, map[], map[];
      round, history := 0, map[];
    }

    /** Begins a round. */
    method ResetSampled()
      requires Valid()
      modifies this
      ensures Valid() && initialized
      ensures round == old(round) + 1 && history == old(history)
      ensures forall key :: !SampledIn(Samples(history, key), round)
    {
      if !initialized {
        sampled, lossCounts, initialized := map[], map[], true;
      }
      var todo := sampled.Keys;
      while todo != {}
        invariant todo <= sampled.Keys
        invariant forall key :: key in sampled && key !in todo ==> !sampled[key]
        invariant history == old(history) && round == old(round) && initialized
        invariant sampled.Keys == old(sampled).Keys && lossCounts == old(lossCounts)
        decreases todo
      {
        var key :| key in todo;
        sampled := sampled[key := false];
        todo := todo - {key};
      }
      round := round + 1;
      assert Agree(old(sampled), old(lossCounts), history, round - 1);
      forall key ensures AgreeOn(key, sampled, lossCounts, Samples(history, key), round) {
        assert AgreeOn(key, old(sampled), old(lossCounts), Samples(history, key), round - 1);
      }
    }

    /** Stores the answer for a key that was not sampled yet this round. */
    method StoreSample(key: string, arrayID: string, uid: string, connected: bool)
      requires Valid() && initialized && !IsSampled(sampled, key)
      modifies this
      ensures Valid() && initialized && round == old(round)
      ensures history == WithSample(old(history), key, Sample(round, arrayID, connected, uid))
    {
      assert AgreeOn(key, sampled, lossCounts, Samples(history, key), round);
      RecordingAgrees(sampled, lossCounts, history, key, Sample(round, arrayID, connected, uid));
      var count := if connected then 0 else LossCount(lossCounts, key) + 1;
      sampled, lossCounts := sampled[key := true], lossCounts[key := count];
      history := WithSample(history, key, Sample(round, arrayID, connected, uid));
    }

    /** Asks the driver about a key that was not sampled yet this round. Before the first reset the source panics when
        it stores an answer. */
    method SampleKey(world: World, node: Node, arrayID: string) returns (stored: bool, panicked: bool, ghost log: seq<Event>)
      requires Valid() && !IsSampled(sampled, NodeKey(node.name, arrayID))
      modifies this, world`trace
      ensures Valid() && initialized == old(initialized) && round == old(round)
      ensures world.trace == old(world.trace) + log && Asked(node, log)
      ensures panicked <==> !initialized && SaysSo(log)
      ensures stored <==> initialized && SaysSo(log)
      ensures history == if stored then WithSample(old(history), NodeKey(node.name, arrayID), Sample(round, arrayID, Interpret(log[0].reply).connected, node.uid))
                         else old(history)
    {
      stored, panicked := false, false;
      var v, validation := CallValidate(world, node, []);
      log := validation;
      if v.err == None {
        if initialized {
          StoreSample(NodeKey(node.name, arrayID), arrayID, node.uid, v.connected);
          stored := true;
        } else {
          panicked := true; // a write to a nil map
        }
      }
    }

    /** false exactly when the node copy is the current incarnation, the key was sampled this round, and the run
        of losses has reached the threshold. Before the first reset an answer cannot be stored: the source panics. */
    method CheckConnectivity(cm: PodMonitor, world: World, node: Node, arrayID: string)
      returns (connected: bool, panicked: bool, ghost log: seq<Event>)
      requires Valid()
      modifies this, world`trace
      ensures Valid() && initialized == old(initialized) && round == old(round)
      ensures world.trace == old(world.trace) + log
      ensures !connected <==>
                && cm.GetNodeUID(node.name) != "" && cm.GetNodeUID(node.name) == node.uid
                && initialized && Lost(Samples(history, NodeKey(node.name, arrayID)), round, cm.config.lossThreshold)
      ensures panicked <==> !initialized && SaysSo(log)
      ensures forall key :: key != NodeKey(node.name, arrayID) ==> Samples(history, key) == Samples(old(history), key)
      ensures Answered(cm.GetNodeUID(node.name), node, arrayID, round, initialized, Samples(old(history), NodeKey(node.name, arrayID)),
                       Samples(history, NodeKey(node.name, arrayID)), log)
    {
      log, panicked, connected := [], false, true;
      var nodeUID := cm.GetNodeUID(node.name);
      if nodeUID != "" && nodeUID == node.uid {
        connected, panicked, log := CheckCurrent(world, node, arrayID, cm.config.lossThreshold);
      }
    }

    /** The check of a node copy that is the current incarnation. */
    method CheckCurrent(world: World, node: Node, arrayID: string, threshold: int) returns (connected: bool, panicked: bool, ghost log: seq<Event>)
      requires Valid()
      modifies this, world`trace
      ensures Valid() && initialized == old(initialized) && round == old(round)
      ensures world.trace == old(world.trace) + log
      ensures !connected <==> initialized && Lost(Samples(history, NodeKey(node.name, arrayID)), round, threshold)
      ensures panicked <==> !initialized && SaysSo(log)
      ensures forall key :: key != NodeKey(node.name, arrayID) ==> Samples(history, key) == Samples(old(history), key)
      ensures AnsweredNow(node, arrayID, round, initialized, Samples(old(history), NodeKey(node.name, arrayID)),
                          Samples(history, NodeKey(node.name, arrayID)), log)
    {
      log, panicked := [], false;
      var key := NodeKey(node.name, arrayID);
      assert AgreeOn(key, sampled, lossCounts, Samples(history, key), round);
      var known := IsSampled(sampled, key);
      if !known { known, panicked, log := SampleKey(world, node, arrayID); }
      assert AgreeOn(key, sampled, lossCounts, Samples(history, key), round);
      connected := !known || LossCount(lossCounts, key) < threshold;
    }
  }

  /** The driver is asked about the node, if it has a node ID. */
  ghost predicate Asked(node: Node, log: seq<Event>) {
    if node.csiNodeID == "" then log == []
    else |log| == 1 && log[0].Validated? && log == [Validated(node.name, node.csiNodeID, [], log[0].reply)]
  }

  /** The driver said whether it is connected. */
  ghost predicate SaysSo(log: seq<Event>) {
    log != [] && log[0].Validated? && Interpret(log[0].reply).err == None
  }

  /** How one check may change the history of its key: a stale node copy, a key already sampled this round and a
      failed validation leave it alone; otherwise it gains exactly the interpreted answer. */
  ghost predicate Answered(nodeUID: string, node: Node, arrayID: string, round: nat, initialized: bool, before: seq<Sample>,
                           after: seq<Sample>, log: seq<Event>)
  {
    if nodeUID == "" || nodeUID != node.uid then after == before && log == []
    else AnsweredNow(node, arrayID, round, initialized, before, after, log)
  }

  ghost predicate AnsweredNow(node: Node, arrayID: string, round: nat, initialized: bool, before: seq<Sample>, after: seq<Sample>,
                              log: seq<Event>)
  {
    if initialized && SampledIn(before, round) then after == before && log == []
    else
      && Asked(node, log)
      && after == if initialized && SaysSo(log) then before + [Sample(round, arrayID, Interpret(log[0].reply).connected, node.uid)] else before
  }
}
