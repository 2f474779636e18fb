/** The poll rounds that look for nodes cut off from their array and clean up the pods on them. */
module ArrayMonitor {
  import opened Kube
  import opened World
  import opened Monitor
  import opened Connectivity
  import opened ControllerCleanup
  import opened CleanupSafety
  import opened ControllerHandler
  import opened Promises

  // ---------------------------------------------------------------- comparing affinity labels

  method MapEqualsMap(map1: map<string, string>, map2: map<string, string>) returns (equal: bool)
    ensures equal <==> map1 == map2
  {
    if |map1| != |map2| { return false; }
    var todo := map1.Keys;
    while todo != {}
      invariant todo <= map1.Keys
      invariant forall k :: k in map1 && k !in todo ==> k in map2 && map2[k] == map1[k]
      decreases todo
    {
      var k :| k in todo;
      if k !in map2 || map2[k] != map1[k] { return false; }
      todo := todo - {k};
    }
    SameSizeSubset(map1.Keys, map2.Keys);
    equal := true;
  }

  lemma SameSizeSubset(a: set<string>, b: set<string>)
    requires a <= b && |a| == |b|
    ensures a == b
  {
    if exists x :: x in b && x !in a {
      var x :| x in b && x !in a;
      SubsetSize(a, b - {x});
    }
  }

  lemma SubsetSize(a: set<string>, b: set<string>)
    requires a <= b
    ensures |a| <= |b|
  {
    if a != {} {
      var x :| x in a;
      SubsetSize(a - {x}, b - {x});
    }
  }

  // ---------------------------------------------------------------- sampling

  /** The sample was taken from an answer of the driver about the node of this key, which said so. */
  ghost predicate Backed(key: string, s: Sample, log: seq<Event>) {
    exists e :: e in log && e.Validated? && NodeKey(e.node, s.arrayID) == key &&
                if s.connected then SaysConnected(e.reply) else SaysDisconnected(e.reply)
  }

  ghost predicate GainsBacked(key: string, before: seq<Sample>, after: seq<Sample>, round: nat, log: seq<Event>) {
    && Gains(before, after, round)
    && (after != before ==> Backed(key, after[|after| - 1], log))
  }

  /** The driver was asked about nodes, and nothing else was done. */
  ghost predicate OnlyValidations(log: seq<Event>) {
    forall e :: e in log ==> e.Validated?
  }

  /** From one history to the next, within a round, nothing but backed samples were added, and no call was made but
      the questions they took. */
  ghost predicate SamplesGrow(before: History, after: History, round: nat, log: seq<Event>) {
    OnlyValidations(log) && forall key :: GrowsAt(before, after, key, round, log)
  }

  ghost predicate GrowsAt(before: History, after: History, key: string, round: nat, log: seq<Event>) {
    GainsBacked(key, Samples(before, key), Samples(after, key), round, log)
  }

  lemma SamplesGrowOn(h0: History, h1: History, h2: History, round: nat, log1: seq<Event>, log2: seq<Event>)
    requires SamplesGrow(h0, h1, round, log1) && SamplesGrow(h1, h2, round, log2)
    ensures SamplesGrow(h0, h2, round, log1 + log2)
  {
    forall key ensures GrowsAt(h0, h2, key, round, log1 + log2) {
      assert GrowsAt(h0, h1, key, round, log1) && GrowsAt(h1, h2, key, round, log2);
    }
  }

  /** The node copy of the record is the current incarnation. */
  ghost predicate Current(nodeUIDs: map<string, string>, node: Node) {
    node.name in nodeUIDs && nodeUIDs[node.name] == node.uid != ""
  }

  /** One of the record's arrays is lost to its current node. */
  ghost predicate HasLoss(nodeUIDs: map<string, string>, info: PodInfo, history: History, round: nat, threshold: int) {
    && Current(nodeUIDs, info.node)
    && exists i :: 0 <= i < |info.arrayIDs| &&
                   Lost(Samples(history, NodeKey(info.node.name, info.arrayIDs[i])), round, threshold)
  }

  /** Why an array does not count as lost: the node copy is stale, the question could not be asked or was answered
      with an error this round, or the losses are still too few. */
  ghost predicate Excused(nodeUIDs: map<string, string>, node: Node, h: seq<Sample>, round: nat, threshold: int, log: seq<Event>) {
    || !Current(nodeUIDs, node)
    || node.csiNodeID == ""
    || (exists e :: e in log && e.Validated? && e.node == node.name && SaysNothing(e.reply))
    || (SampledIn(h, round) && TrailingLosses(h) < threshold)
  }

  ghost predicate AllExcused(nodeUIDs: map<string, string>, info: PodInfo, history: History, round: nat, threshold: int, log: seq<Event>) {
    forall i :: 0 <= i < |info.arrayIDs| ==>
      Excused(nodeUIDs, info.node, Samples(history, NodeKey(info.node.name, info.arrayIDs[i])), round, threshold, log)
  }

  lemma VerdictsStay(nodeUIDs: map<string, string>, info: PodInfo, h1: History, h2: History, round: nat, threshold: int,
                     log1: seq<Event>, log2: seq<Event>)
    requires SamplesGrow(h1, h2, round, log2)
    ensures HasLoss(nodeUIDs, info, h1, round, threshold) ==> HasLoss(nodeUIDs, info, h2, round, threshold)
    ensures AllExcused(nodeUIDs, info, h1, round, threshold, log1) ==> AllExcused(nodeUIDs, info, h2, round, threshold, log1 + log2)
  {
    forall i | 0 <= i < |info.arrayIDs|
      ensures var key := NodeKey(info.node.name, info.arrayIDs[i]);
              SampledIn(Samples(h1, key), round) ==> Samples(h2, key) == Samples(h1, key)
    {
      var key := NodeKey(info.node.name, info.arrayIDs[i]);
      assert GrowsAt(h1, h2, key, round, log2);
    }
  }

  predicate HasKey(info: PodInfo, key: string) {
    exists i :: 0 <= i < |info.arrayIDs| && NodeKey(info.node.name, info.arrayIDs[i]) == key
  }

  /** Only keys of this record were sampled, about its current node; and a newly lost one makes it not connected. */
  ghost predicate LossesFrom(nodeUIDs: map<string, string>, info: PodInfo, before: History, after: History, round: nat,
                             threshold: int, connected: bool)
  {
    forall key :: LossAt(nodeUIDs, info, key, before, after, round, threshold, connected)
  }

  ghost predicate LossAt(nodeUIDs: map<string, string>, info: PodInfo, key: string, before: History, after: History, round: nat,
                         threshold: int, connected: bool)
  {
    LossFrom(nodeUIDs, info, key, Samples(before, key), Samples(after, key), round, threshold, connected)
  }

  ghost predicate LossFrom(nodeUIDs: map<string, string>, info: PodInfo, key: string, before: seq<Sample>, after: seq<Sample>,
                           round: nat, threshold: int, connected: bool)
  {
    && (after != before ==>
          Current(nodeUIDs, info.node) && HasKey(info, key) && after != [] && after[|after| - 1].uid == info.node.uid)
    && (Lost(after, round, threshold) && after != before ==> !connected)
  }

  /** A record as it was sampled, with the node UIDs of that time, after the first at changes. */
  datatype Seen = Seen(info: PodInfo, uids: map<string, string>, at: nat)

  type Sightings = map<string, Seen>

  ghost predicate SeenAt(r: Chronicle, podKey: string, s: Seen) {
    && s.at < |r.past| && podKey in r.past[s.at].infos
    && r.past[s.at].infos[podKey] == s.info && r.past[s.at].uids == s.uids
  }

  /** Every key that was sampled this round was asked about for a sampled record with a current node copy, of which the
      sample tells the UID; and one that is lost, for a listed record. */
  ghost predicate LossesListed(seen: Sightings, toClean: seq<string>, history: History, round: nat, threshold: int) {
    forall key :: SampledIn(Samples(history, key), round) ==>
      && AskedAbout(seen, key, Samples(history, key)[|Samples(history, key)| - 1].uid)
      && (Lost(Samples(history, key), round, threshold) ==> ListedKey(seen, toClean, key))
  }

  ghost predicate AskedAbout(seen: Sightings, key: string, uid: string) {
    exists k :: k in seen && HasCurrentKey(seen[k], key) && seen[k].info.node.uid == uid
  }

  ghost predicate ListedKey(seen: Sightings, toClean: seq<string>, key: string) {
    exists k :: k in toClean && k in seen && HasCurrentKey(seen[k], key)
  }

  ghost predicate HasCurrentKey(s: Seen, key: string) {
    Current(s.uids, s.info.node) && HasKey(s.info, key)
  }

  lemma AskedStill(seen: Sightings, podKey: string, s: Seen, key: string, uid: string)
    requires podKey !in seen && AskedAbout(seen, key, uid)
    ensures AskedAbout(seen[podKey := s], key, uid)
  {
    var k :| k in seen && HasCurrentKey(seen[k], key) && seen[k].info.node.uid == uid;
    assert k in seen[podKey := s] && seen[podKey := s][k] == seen[k];
  }

  lemma ListedStill(seen: Sightings, podKey: string, s: Seen, toClean: seq<string>, toClean': seq<string>, key: string)
    requires podKey !in seen && ListedKey(seen, toClean, key) && (toClean' == toClean || toClean' == toClean + [podKey])
    ensures ListedKey(seen[podKey := s], toClean', key)
  {
    var k :| k in toClean && k in seen && HasCurrentKey(seen[k], key);
    assert k in toClean' && k in seen[podKey := s] && seen[podKey := s][k] == seen[k];
  }

  lemma LossesListedOn(seen: Sightings, toClean: seq<string>, before: History, after: History, round: nat, threshold: int,
                       podKey: string, s: Seen, connected: bool)
    requires LossesListed(seen, toClean, before, round, threshold) && podKey !in seen
    requires LossesFrom(s.uids, s.info, before, after, round, threshold, connected)
    ensures LossesListed(seen[podKey := s], if connected then toClean else toClean + [podKey], after, round, threshold)
  {
    var seen', toClean' := seen[podKey := s], if connected then toClean else toClean + [podKey];
    forall key | SampledIn(Samples(after, key), round)
      ensures AskedAbout(seen', key, Samples(after, key)[|Samples(after, key)| - 1].uid)
      ensures Lost(Samples(after, key), round, threshold) ==> ListedKey(seen', toClean', key)
    {
      var h0, h1 := Samples(before, key), Samples(after, key);
      assert LossAt(s.uids, s.info, key, before, after, round, threshold, connected);
      if h1 == h0 {
        AskedStill(seen, podKey, s, key, h1[|h1| - 1].uid);
        if Lost(h1, round, threshold) { ListedStill(seen, podKey, s, toClean, toClean', key); }
      } else {
        assert seen'[podKey] == s && HasCurrentKey(s, key);
        if Lost(h1, round, threshold) { assert podKey in toClean'; }
      }
    }
  }

  lemma AnswerGrows(node: Node, arrayID: string, nodeUID: string, before: History, after: History, round: nat, one: seq<Event>)
    requires forall key :: key != NodeKey(node.name, arrayID) ==> Samples(after, key) == Samples(before, key)
    requires var key := NodeKey(node.name, arrayID);
             Answered(nodeUID, node, arrayID, round, true, Samples(before, key), Samples(after, key), one)
    ensures SamplesGrow(before, after, round, one)
  {
    var key := NodeKey(node.name, arrayID);
    var h0, h1 := Samples(before, key), Samples(after, key);
    assert GrowsAt(before, after, key, round, one) by {
      if h1 != h0 { assert h1[..|h0|] == h0 && one[0] in one; }
    }
    forall other ensures GrowsAt(before, after, other, round, one) {
      if other != key { assert Samples(after, other) == Samples(before, other); }
    }
  }

  lemma AnswerExcuses(nodeUIDs: map<string, string>, node: Node, arrayID: string, before: seq<Sample>, after: seq<Sample>,
                      round: nat, threshold: int, log: seq<Event>, one: seq<Event>)
    requires Answered(UidOf(nodeUIDs, node.name), node, arrayID, round, true, before, after, one)
    requires !(Current(nodeUIDs, node) && Lost(after, round, threshold))
    ensures Excused(nodeUIDs, node, after, round, threshold, log + one)
  {
    if one != [] { assert one[0] in log + one; }
  }

  /** The answers for the first n arrays of a record: a loss among them, or an excuse for each. */
  ghost predicate AskedFor(nodeUIDs: map<string, string>, info: PodInfo, n: nat, history: History, round: nat, threshold: int,
                           connected: bool, log: seq<Event>)
    requires n <= |info.arrayIDs|
  {
    if connected then AllExcused(nodeUIDs, info.(arrayIDs := info.arrayIDs[..n]), history, round, threshold, log)
    else HasLoss(nodeUIDs, info, history, round, threshold)
  }

  lemma AskedStays(nodeUIDs: map<string, string>, info: PodInfo, n: nat, h1: History, h2: History, round: nat, threshold: int,
                   connected: bool, log1: seq<Event>, log2: seq<Event>)
    requires n <= |info.arrayIDs| && SamplesGrow(h1, h2, round, log2)
    requires AskedFor(nodeUIDs, info, n, h1, round, threshold, connected, log1)
    ensures AskedFor(nodeUIDs, info, n, h2, round, threshold, connected, log1 + log2)
  {
    VerdictsStay(nodeUIDs, if connected then info.(arrayIDs := info.arrayIDs[..n]) else info, h1, h2, round, threshold, log1, log2);
  }

  lemma AskedNext(nodeUIDs: map<string, string>, info: PodInfo, i: nat, history: History, round: nat, threshold: int,
                  connected: bool, cnct: bool, log: seq<Event>)
    requires i < |info.arrayIDs| && AskedFor(nodeUIDs, info, i, history, round, threshold, connected, log)
    requires var h := Samples(history, NodeKey(info.node.name, info.arrayIDs[i]));
             if cnct then Excused(nodeUIDs, info.node, h, round, threshold, log)
             else Current(nodeUIDs, info.node) && Lost(h, round, threshold)
    ensures AskedFor(nodeUIDs, info, i + 1, history, round, threshold, connected && cnct, log)
  {
    var upTo, upToNext := info.(arrayIDs := info.arrayIDs[..i]), info.(arrayIDs := info.arrayIDs[..i + 1]);
    if connected && cnct {
      forall k | 0 <= k < i + 1
        ensures Excused(nodeUIDs, info.node, Samples(history, NodeKey(info.node.name, upToNext.arrayIDs[k])), round, threshold, log)
      {
        if k < i { assert upTo.arrayIDs[k] == upToNext.arrayIDs[k]; }
      }
    }
  }

  /** How the check of one node and array changes the histories, and what it returns. */
  ghost predicate Checked(nodeUIDs: map<string, string>, node: Node, arrayID: string, before: History, after: History, round: nat,
                          threshold: int, connected: bool, one: seq<Event>)
  {
    var key := NodeKey(node.name, arrayID);
    && (forall other :: other != key ==> Samples(after, other) == Samples(before, other))
    && Answered(UidOf(nodeUIDs, node.name), node, arrayID, round, true, Samples(before, key), Samples(after, key), one)
    && (!connected <==> Current(nodeUIDs, node) && Lost(Samples(after, key), round, threshold))
  }

  method CheckOne(cm: PodMonitor, cache: ConnectivityCache, world: World, node: Node, arrayID: string)
    returns (connected: bool, ghost one: seq<Event>)
    requires cache.Valid() && cache.initialized
    modifies cache, world`trace
    ensures cache.Valid() && cache.initialized && cache.round == old(cache.round)
    ensures world.trace == old(world.trace) + one && SamplesGrow(old(cache.history), cache.history, cache.round, one)
    ensures Checked(cm.nodeUIDs, node, arrayID, old(cache.history), cache.history, cache.round, cm.config.lossThreshold, connected, one)
  {
    ghost var panicked;
    connected, panicked, one := cache.CheckConnectivity(cm, world, node, arrayID);
    AnswerGrows(node, arrayID, UidOf(cm.nodeUIDs, node.name), old(cache.history), cache.history, cache.round, one);
  }

  /** Asks about the next array, whatever the ones before answered. */
  method CheckNext(cm: PodMonitor, cache: ConnectivityCache, world: World, info: PodInfo, i: nat, connected0: bool,
                   ghost start: History, ghost t0: seq<Event>, ghost earlier: seq<Event>)
    returns (connected: bool, ghost log: seq<Event>)
    requires cache.Valid() && cache.initialized && i < |info.arrayIDs|
    requires world.trace == t0 + earlier && SamplesGrow(start, cache.history, cache.round, earlier)
    requires AskedFor(cm.nodeUIDs, info, i, cache.history, cache.round, cm.config.lossThreshold, connected0, earlier)
    requires LossesFrom(cm.nodeUIDs, info, start, cache.history, cache.round, cm.config.lossThreshold, connected0)
    modifies cache, world`trace
    ensures cache.Valid() && cache.initialized && cache.round == old(cache.round)
    ensures world.trace == t0 + log && SamplesGrow(start, cache.history, cache.round, log)
    ensures LossesFrom(cm.nodeUIDs, info, start, cache.history, cache.round, cm.config.lossThreshold, connected)
    ensures AskedFor(cm.nodeUIDs, info, i + 1, cache.history, cache.round, cm.config.lossThreshold, connected, log)
  {
    ghost var before := cache.history;
    var cnct, one := CheckOne(cm, cache, world, info.node, info.arrayIDs[i]);
    SamplesGrowOn(start, before, cache.history, cache.round, earlier, one);
    Regroup(t0, earlier, one);
    log := earlier + one;
    connected := connected0 && cnct;
    LossesOn(cm.nodeUIDs, info, i, start, before, cache.history, cache.round, cm.config.lossThreshold, connected0, cnct, one);
    AskedOneMore(cm.nodeUIDs, info, i, before, cache.history, cache.round, cm.config.lossThreshold, connected0, cnct, earlier, one);
  }

  lemma AskedOneMore(nodeUIDs: map<string, string>, info: PodInfo, i: nat, before: History, after: History, round: nat,
                     threshold: int, connected: bool, cnct: bool, log: seq<Event>, one: seq<Event>)
    requires i < |info.arrayIDs| && SamplesGrow(before, after, round, one)
    requires AskedFor(nodeUIDs, info, i, before, round, threshold, connected, log)
    requires Checked(nodeUIDs, info.node, info.arrayIDs[i], before, after, round, threshold, cnct, one)
    ensures AskedFor(nodeUIDs, info, i + 1, after, round, threshold, connected && cnct, log + one)
  {
    var key := NodeKey(info.node.name, info.arrayIDs[i]);
    AskedStays(nodeUIDs, info, i, before, after, round, threshold, connected, log, one);
    if cnct {
      AnswerExcuses(nodeUIDs, info.node, info.arrayIDs[i], Samples(before, key), Samples(after, key), round, threshold, log, one);
    }
    AskedNext(nodeUIDs, info, i, after, round, threshold, connected, cnct, log + one);
  }

  lemma LossesOn(nodeUIDs: map<string, string>, info: PodInfo, i: nat, start: History, before: History, after: History,
                 round: nat, threshold: int, connected: bool, cnct: bool, one: seq<Event>)
    requires i < |info.arrayIDs| && LossesFrom(nodeUIDs, info, start, before, round, threshold, connected)
    requires Checked(nodeUIDs, info.node, info.arrayIDs[i], before, after, round, threshold, cnct, one)
    ensures LossesFrom(nodeUIDs, info, start, after, round, threshold, connected && cnct)
  {
    var both := connected && cnct;
    forall key ensures LossAt(nodeUIDs, info, key, start, after, round, threshold, both) {
      assert LossAt(nodeUIDs, info, key, start, before, round, threshold, connected);
      if Samples(after, key) != Samples(before, key) { assert HasKey(info, key); }
    }
  }

  /** Asks about every array of one record; no answer cuts the questions short. */
  method CheckPod(cm: PodMonitor, cache: ConnectivityCache, world: World, info: PodInfo)
    returns (connected: bool, ghost log: seq<Event>)
    requires cache.Valid() && cache.initialized
    modifies cache, world`trace
    ensures cache.Valid() && cache.initialized && cache.round == old(cache.round)
    ensures world.trace == old(world.trace) + log
    ensures SamplesGrow(old(cache.history), cache.history, cache.round, log)
    ensures LossesFrom(cm.nodeUIDs, info, old(cache.history), cache.history, cache.round, cm.config.lossThreshold, connected)
    ensures !connected ==> HasLoss(cm.nodeUIDs, info, cache.history, cache.round, cm.config.lossThreshold)
    ensures connected ==> AllExcused(cm.nodeUIDs, info, cache.history, cache.round, cm.config.lossThreshold, log)
  {
    connected, log := true, [];
    ghost var start, t0 := cache.history, world.trace;
    for i := 0 to |info.arrayIDs|
      invariant cache.Valid() && cache.initialized && cache.round == old(cache.round)
      invariant world.trace == t0 + log && SamplesGrow(start, cache.history, cache.round, log)
      invariant LossesFrom(cm.nodeUIDs, info, start, cache.history, cache.round, cm.config.lossThreshold, connected)
      invariant AskedFor(cm.nodeUIDs, info, i, cache.history, cache.round, cm.config.lossThreshold, connected, log)
    {
      connected, log := CheckNext(cm, cache, world, info, i, connected, start, t0, log);
    }
    AllArrays(info);
  }

  lemma AllArrays(info: PodInfo)
    ensures info.(arrayIDs := info.arrayIDs[..|info.arrayIDs|]) == info
  {
    assert info.arrayIDs[..|info.arrayIDs|] == info.arrayIDs;
  }

  /** The verdict on every sampled record: listed to be cleaned with a loss, or not listed with an excuse. */
  ghost predicate Sorted(seen: Sightings, toClean: seq<string>, history: History, round: nat, threshold: int, log: seq<Event>) {
    && (forall k :: k in toClean ==> k in seen && HasLoss(seen[k].uids, seen[k].info, history, round, threshold))
    && (forall k :: k in seen && k !in toClean ==> AllExcused(seen[k].uids, seen[k].info, history, round, threshold, log))
    && (forall i, k :: 0 <= i < k < |toClean| ==> toClean[i] != toClean[k])
  }

  lemma SortedStays(seen: Sightings, toClean: seq<string>, h1: History, h2: History, round: nat, threshold: int,
                    log1: seq<Event>, log2: seq<Event>)
    requires Sorted(seen, toClean, h1, round, threshold, log1) && SamplesGrow(h1, h2, round, log2)
    ensures Sorted(seen, toClean, h2, round, threshold, log1 + log2)
  {
    forall k | k in seen
      ensures HasLoss(seen[k].uids, seen[k].info, h1, round, threshold) ==> HasLoss(seen[k].uids, seen[k].info, h2, round, threshold)
      ensures AllExcused(seen[k].uids, seen[k].info, h1, round, threshold, log1) ==>
                AllExcused(seen[k].uids, seen[k].info, h2, round, threshold, log1 + log2)
    {
      VerdictsStay(seen[k].uids, seen[k].info, h1, h2, round, threshold, log1, log2);
    }
  }

  lemma ExcusedOn(uids: map<string, string>, info: PodInfo, history: History, round: nat, threshold: int, log: seq<Event>, one: seq<Event>)
    requires AllExcused(uids, info, history, round, threshold, one)
    ensures AllExcused(uids, info, history, round, threshold, log + one)
  {
    forall i | 0 <= i < |info.arrayIDs|
      ensures Excused(uids, info.node, Samples(history, NodeKey(info.node.name, info.arrayIDs[i])), round, threshold, log + one)
    {
      assert Excused(uids, info.node, Samples(history, NodeKey(info.node.name, info.arrayIDs[i])), round, threshold, one);
    }
  }

  lemma SortedWith(seen: Sightings, toClean: seq<string>, history: History, round: nat, threshold: int, log: seq<Event>,
                   podKey: string, s: Seen, connected: bool)
    requires Sorted(seen, toClean, history, round, threshold, log) && podKey !in seen
    requires !connected ==> HasLoss(s.uids, s.info, history, round, threshold)
    requires connected ==> AllExcused(s.uids, s.info, history, round, threshold, log)
    ensures Sorted(seen[podKey := s], if connected then toClean else toClean + [podKey], history, round, threshold, log)
  {
    assert podKey !in toClean;
    if !connected {
      forall i | 0 <= i < |toClean| ensures toClean[i] != podKey { assert toClean[i] in toClean; }
    }
  }

  /** The nodes of the listed records. */
  function NodesOf(seen: Sightings, podKeys: seq<string>): set<string> {
    if podKeys == [] then {}
    else
      var last := podKeys[|podKeys| - 1];
      NodesOf(seen, podKeys[..|podKeys| - 1]) + if last in seen then {seen[last].info.node.name} else {}
  }

  lemma {:induction false} NodesOfMeaning(seen: Sightings, podKeys: seq<string>, node: string)
    ensures node in NodesOf(seen, podKeys) <==> exists k :: k in podKeys && k in seen && seen[k].info.node.name == node
  {
    if podKeys != [] {
      var before, last := podKeys[..|podKeys| - 1], podKeys[|podKeys| - 1];
      NodesOfMeaning(seen, before, node);
      assert podKeys == before + [last];
    }
  }

  lemma {:induction false} NodesStay(seen: Sightings, podKeys: seq<string>, podKey: string, s: Seen)
    requires podKey !in seen && forall k :: k in podKeys ==> k in seen
    ensures NodesOf(seen[podKey := s], podKeys) == NodesOf(seen, podKeys)
  {
    if podKeys != [] {
      var before, last := podKeys[..|podKeys| - 1], podKeys[|podKeys| - 1];
      assert last in podKeys && forall k :: k in before ==> k in podKeys;
      NodesStay(seen, before, podKey, s);
    }
  }

  lemma NodesOn(seen: Sightings, podKeys: seq<string>, podKey: string, s: Seen)
    requires podKey !in seen && forall k :: k in podKeys ==> k in seen
    ensures NodesOf(seen[podKey := s], podKeys) == NodesOf(seen, podKeys)
    ensures NodesOf(seen[podKey := s], podKeys + [podKey]) == NodesOf(seen, podKeys) + {s.info.node.name}
  {
    NodesStay(seen, podKeys, podKey, s);
    assert (podKeys + [podKey])[..|podKeys|] == podKeys;
  }

  /** A record's turn: its sighting, the questions it took, the histories after it, and the verdict. */
  datatype Turn = Turn(sight: Seen, log: seq<Event>, history: History, connected: bool)

  ghost predicate TurnTaken(before: History, round: nat, threshold: int, t: Turn) {
    && SamplesGrow(before, t.history, round, t.log)
    && LossesFrom(t.sight.uids, t.sight.info, before, t.history, round, threshold, t.connected)
    && (!t.connected ==> HasLoss(t.sight.uids, t.sight.info, t.history, round, threshold))
    && (t.connected ==> AllExcused(t.sight.uids, t.sight.info, t.history, round, threshold, t.log))
  }

  function HistoryAfter(start: History, turns: seq<Turn>): History {
    if turns == [] then start else turns[|turns| - 1].history
  }

  function TurnLogs(turns: seq<Turn>): seq<Event> {
    if turns == [] then [] else TurnLogs(turns[..|turns| - 1]) + turns[|turns| - 1].log
  }

  function Sighted(turns: seq<Turn>): Sightings {
    if turns == [] then map[]
    else
      var last := turns[|turns| - 1];
      Sighted(turns[..|turns| - 1])[last.sight.info.podKey := last.sight]
  }

  /** The pods whose turn found them disconnected, in order. */
  function Disconnected(turns: seq<Turn>): seq<string> {
    if turns == [] then []
    else
      var last := turns[|turns| - 1];
      Disconnected(turns[..|turns| - 1]) + if last.connected then [] else [last.sight.info.podKey]
  }

  function NodesOfTurns(turns: seq<Turn>): set<string> {
    if turns == [] then {}
    else
      var last := turns[|turns| - 1];
      NodesOfTurns(turns[..|turns| - 1]) + if last.connected then {} else {last.sight.info.node.name}
  }

  /** Turns of different pods, one after another. */
  ghost predicate Taken(start: History, round: nat, threshold: int, turns: seq<Turn>) {
    turns == [] ||
    var before, last := turns[..|turns| - 1], turns[|turns| - 1];
    && Taken(start, round, threshold, before)
    && last.sight.info.podKey !in Sighted(before)
    && TurnTaken(HistoryAfter(start, before), round, threshold, last)
  }

  lemma {:induction false} TurnsGrow(start: History, round: nat, threshold: int, turns: seq<Turn>)
    requires Taken(start, round, threshold, turns)
    ensures SamplesGrow(start, HistoryAfter(start, turns), round, TurnLogs(turns))
  {
    if turns != [] {
      var before, last := turns[..|turns| - 1], turns[|turns| - 1];
      TurnsGrow(start, round, threshold, before);
      SamplesGrowOn(start, HistoryAfter(start, before), last.history, round, TurnLogs(before), last.log);
    }
  }

  lemma {:induction false} TurnsSort(start: History, round: nat, threshold: int, turns: seq<Turn>)
    requires Taken(start, round, threshold, turns)
    ensures Sorted(Sighted(turns), Disconnected(turns), HistoryAfter(start, turns), round, threshold, TurnLogs(turns))
  {
    if turns != [] {
      var before, last := turns[..|turns| - 1], turns[|turns| - 1];
      TurnsSort(start, round, threshold, before);
      TurnSorts(Sighted(before), Disconnected(before), HistoryAfter(start, before), round, threshold, TurnLogs(before), last);
    }
  }

  lemma TurnSorts(seen: Sightings, toClean: seq<string>, before: History, round: nat, threshold: int, log: seq<Event>, t: Turn)
    requires Sorted(seen, toClean, before, round, threshold, log) && TurnTaken(before, round, threshold, t)
    requires t.sight.info.podKey !in seen
    ensures Sorted(seen[t.sight.info.podKey := t.sight], toClean + (if t.connected then [] else [t.sight.info.podKey]), t.history,
                   round, threshold, log + t.log)
  {
    SortedStays(seen, toClean, before, t.history, round, threshold, log, t.log);
    if t.connected { ExcusedOn(t.sight.uids, t.sight.info, t.history, round, threshold, log, t.log); }
    SortedWith(seen, toClean, t.history, round, threshold, log + t.log, t.sight.info.podKey, t.sight, t.connected);
    assert toClean + [] == toClean;
  }

  lemma {:induction false} TurnsListLosses(start: History, round: nat, threshold: int, turns: seq<Turn>)
    requires forall key :: !SampledIn(Samples(start, key), round)
    requires Taken(start, round, threshold, turns)
    ensures LossesListed(Sighted(turns), Disconnected(turns), HistoryAfter(start, turns), round, threshold)
  {
    if turns != [] {
      var before, last := turns[..|turns| - 1], turns[|turns| - 1];
      TurnsListLosses(start, round, threshold, before);
      LossesListedOn(Sighted(before), Disconnected(before), HistoryAfter(start, before), last.history, round, threshold,
                     last.sight.info.podKey, last.sight, last.connected);
      assert Disconnected(before) + [] == Disconnected(before);
    }
  }

  lemma {:induction false} TurnsNodes(start: History, round: nat, threshold: int, turns: seq<Turn>)
    requires Taken(start, round, threshold, turns)
    ensures forall k :: k in Disconnected(turns) ==> k in Sighted(turns)
    ensures NodesOfTurns(turns) == NodesOf(Sighted(turns), Disconnected(turns))
  {
    if turns != [] {
      var before, last := turns[..|turns| - 1], turns[|turns| - 1];
      TurnsNodes(start, round, threshold, before);
      NodesOn(Sighted(before), Disconnected(before), last.sight.info.podKey, last.sight);
      assert Disconnected(before) + [] == Disconnected(before);
    }
  }

  /** Every turn's record was stored at its time. */
  ghost predicate AllSeen(r: Chronicle, turns: seq<Turn>) {
    turns == [] ||
    var last := turns[|turns| - 1];
    AllSeen(r, turns[..|turns| - 1]) && SeenAt(r, last.sight.info.podKey, last.sight)
  }

  lemma {:induction false} SeenStays(before: Chronicle, r: Chronicle, turns: seq<Turn>)
    requires r.Continues(before) && AllSeen(before, turns)
    ensures AllSeen(r, turns)
  {
    if turns != [] { SeenStays(before, r, turns[..|turns| - 1]); }
  }

  lemma {:induction false} AllSeenMeaning(r: Chronicle, turns: seq<Turn>, podKey: string)
    requires AllSeen(r, turns) && podKey in Sighted(turns)
    ensures SeenAt(r, podKey, Sighted(turns)[podKey])
  {
    var before, last := turns[..|turns| - 1], turns[|turns| - 1];
    if podKey != last.sight.info.podKey { AllSeenMeaning(r, before, podKey); }
  }

  lemma OneMoreTurn(turns: seq<Turn>, t: Turn)
    ensures (turns + [t])[..|turns|] == turns
    ensures TurnLogs(turns + [t]) == TurnLogs(turns) + t.log
    ensures Disconnected(turns + [t]) == Disconnected(turns) + if t.connected then [] else [t.sight.info.podKey]
    ensures NodesOfTurns(turns + [t]) == NodesOfTurns(turns) + if t.connected then {} else {t.sight.info.node.name}
  {
    assert (turns + [t])[..|turns|] == turns;
  }

  lemma OneMoreSighting(turns: seq<Turn>, t: Turn)
    ensures Sighted(turns + [t]).Keys == Sighted(turns).Keys + {t.sight.info.podKey}
  {
    assert (turns + [t])[..|turns|] == turns;
  }

  method TakeTurn(cm: PodMonitor, cache: ConnectivityCache, world: World, info: PodInfo, ghost at: nat) returns (connected: bool, ghost t: Turn)
    requires cache.Valid() && cache.initialized
    modifies cache, world`trace
    ensures cache.Valid() && cache.initialized && cache.round == old(cache.round) && world.trace == old(world.trace) + t.log
    ensures t.sight == Seen(info, cm.nodeUIDs, at) && t.connected == connected && t.history == cache.history
    ensures TurnTaken(old(cache.history), cache.round, cm.config.lossThreshold, t)
  {
    ghost var log;
    connected, log := CheckPod(cm, cache, world, info);
    t := Turn(Seen(info, cm.nodeUIDs, at), log, cache.history, connected);
  }

  /** Goes over the records in any order. Unless the monitor is alone, other goroutines change them meanwhile: one that
      is dropped before its turn is passed over, and one that is stored meanwhile may get a turn or not. */
  method SamplePods(cm: PodMonitor, cache: ConnectivityCache, world: World, alone: bool)
    returns (toClean: seq<string>, nodesToTaint: set<string>, ghost r: Chronicle, ghost turns: seq<Turn>)
    requires cm.Keyed() && cache.Valid() && cache.initialized
    modifies cm`infos, cm`nodeUIDs, cache, world`trace
    ensures cache.Valid() && cache.initialized && cache.round == old(cache.round)
    ensures world.trace == old(world.trace) + TurnLogs(turns) && cache.history == HistoryAfter(old(cache.history), turns)
    ensures Taken(old(cache.history), cache.round, cm.config.lossThreshold, turns)
    ensures toClean == Disconnected(turns) && nodesToTaint == NodesOfTurns(turns)
    ensures Follows(cm.config, r, cm.infos, cm.nodeUIDs) && AllSeen(r, turns)
    ensures r.Continues(Beginning(Tables(old(cm.infos), old(cm.nodeUIDs))))
    ensures alone ==> r == Beginning(Tables(cm.infos, cm.nodeUIDs)) && Sighted(turns).Keys == cm.infos.Keys
  {
    toClean, nodesToTaint, turns := [], {}, [];
    ghost var start, t0, begin := cache.history, world.trace, Beginning(Tables(cm.infos, cm.nodeUIDs));
    r := begin;
    var more: set<string> := *;
    if alone { more := {}; }
    var todo := cm.infos.Keys + more;
    while todo != {}
      invariant cache.Valid() && cache.initialized && cache.round == old(cache.round)
      invariant world.trace == t0 + TurnLogs(turns) && cache.history == HistoryAfter(start, turns)
      invariant Taken(start, cache.round, cm.config.lossThreshold, turns)
      invariant toClean == Disconnected(turns) && nodesToTaint == NodesOfTurns(turns)
      invariant Follows(cm.config, r, cm.infos, cm.nodeUIDs) && AllSeen(r, turns) && r.Continues(begin)
      invariant todo !! Sighted(turns).Keys
      invariant alone ==> r == begin && todo + Sighted(turns).Keys == cm.infos.Keys
      decreases todo
    {
      var key :| key in todo;
      toClean, nodesToTaint, r, turns := SampleNext(cm, cache, world, key, alone, toClean, nodesToTaint, start, t0, r, turns);
      todo := todo - {key};
    }
  }

  /** Time for other goroutines, and the turn of a key. */
  method SampleNext(cm: PodMonitor, cache: ConnectivityCache, world: World, key: string, alone: bool, toClean0: seq<string>,
                    nodes0: set<string>, ghost start: History, ghost t0: seq<Event>, ghost r0: Chronicle, ghost before: seq<Turn>)
    returns (toClean: seq<string>, nodesToTaint: set<string>, ghost r: Chronicle, ghost turns: seq<Turn>)
    requires cache.Valid() && cache.initialized && key !in Sighted(before)
    requires world.trace == t0 + TurnLogs(before) && cache.history == HistoryAfter(start, before)
    requires Taken(start, cache.round, cm.config.lossThreshold, before)
    requires toClean0 == Disconnected(before) && nodes0 == NodesOfTurns(before)
    requires Follows(cm.config, r0, cm.infos, cm.nodeUIDs) && AllSeen(r0, before)
    modifies cm`infos, cm`nodeUIDs, cache, world`trace
    ensures cache.Valid() && cache.initialized && cache.round == old(cache.round)
    ensures world.trace == t0 + TurnLogs(turns) && cache.history == HistoryAfter(start, turns)
    ensures Taken(start, cache.round, cm.config.lossThreshold, turns)
    ensures toClean == Disconnected(turns) && nodesToTaint == NodesOfTurns(turns)
    ensures Follows(cm.config, r, cm.infos, cm.nodeUIDs) && AllSeen(r, turns) && r.Continues(r0)
    ensures Sighted(before).Keys <= Sighted(turns).Keys <= Sighted(before).Keys + {key}
    ensures alone ==> r == r0 && cm.infos == old(cm.infos) && cm.nodeUIDs == old(cm.nodeUIDs)
    ensures alone && key in cm.infos ==> key in Sighted(turns)
  {
    r := PauseSampling(cm, alone, r0, before);
    toClean, nodesToTaint, turns := SampleKey(cm, cache, world, key, toClean0, nodes0, start, t0, r, before);
  }

  /** Time for other goroutines, unless the monitor is alone. */
  method PauseSampling(cm: PodMonitor, alone: bool, ghost before: Chronicle, ghost turns: seq<Turn>) returns (ghost r: Chronicle)
    requires Follows(cm.config, before, cm.infos, cm.nodeUIDs) && AllSeen(before, turns)
    modifies cm`infos, cm`nodeUIDs
    ensures Follows(cm.config, r, cm.infos, cm.nodeUIDs) && AllSeen(r, turns) && r.Continues(before)
    ensures alone ==> r == before && cm.infos == old(cm.infos) && cm.nodeUIDs == old(cm.nodeUIDs)
  {
    r := Yield(cm, alone, before);
    SeenStays(before, r, turns);
  }

  /** The turn of a key, if there is a record under it by then. */
  method SampleKey(cm: PodMonitor, cache: ConnectivityCache, world: World, key: string, toClean0: seq<string>, nodes0: set<string>,
                   ghost start: History, ghost t0: seq<Event>, ghost r: Chronicle, ghost before: seq<Turn>)
    returns (toClean: seq<string>, nodesToTaint: set<string>, ghost turns: seq<Turn>)
    requires cache.Valid() && cache.initialized && key !in Sighted(before)
    requires world.trace == t0 + TurnLogs(before) && cache.history == HistoryAfter(start, before)
    requires Taken(start, cache.round, cm.config.lossThreshold, before)
    requires toClean0 == Disconnected(before) && nodes0 == NodesOfTurns(before)
    requires Follows(cm.config, r, cm.infos, cm.nodeUIDs) && AllSeen(r, before)
    modifies cache, world`trace
    ensures cache.Valid() && cache.initialized && cache.round == old(cache.round)
    ensures world.trace == t0 + TurnLogs(turns) && cache.history == HistoryAfter(start, turns)
    ensures Taken(start, cache.round, cm.config.lossThreshold, turns)
    ensures toClean == Disconnected(turns) && nodesToTaint == NodesOfTurns(turns)
    ensures AllSeen(r, turns) && Sighted(turns).Keys == Sighted(before).Keys + if key in cm.infos then {key} else {}
  {
    toClean, nodesToTaint, turns := toClean0, nodes0, before;
    if key in cm.infos {
      var info := cm.infos[key];
      assert info.podKey == key;
      var connected, t := TakeTurn(cm, cache, world, info, |r.past| - 1);
      OneMoreTurn(before, t);
      OneMoreSighting(before, t);
      Regroup(t0, TurnLogs(before), t.log);
      turns := before + [t];
      if !connected {
        nodesToTaint := nodesToTaint + {info.node.name};
        toClean := toClean + [info.podKey];
      }
    }
  }

  // ---------------------------------------------------------------- tainting

  /** The nodes a log of taint attempts is about. */
  function Attempted(key: string, log: seq<Event>): set<string> {
    if log == [] then {}
    else
      var e := log[|log| - 1];
      Attempted(key, log[..|log| - 1]) +
      if e.Did? && e.call.TaintNode? && e.call == TaintNode(e.call.node, key, NO_SCHEDULE, false) then {e.call.node} else {}
  }

  /** Exactly one attempt per node, whatever it answers, and nothing else. */
  ghost predicate TaintsOnce(nodes: set<string>, key: string, log: seq<Event>) {
    OnlyTaints(log) && |log| == |nodes| && Attempted(key, log) == nodes
  }

  predicate OnlyTaints(log: seq<Event>) {
    log == [] || (OnlyTaints(log[..|log| - 1]) && log[|log| - 1].Did? && log[|log| - 1].call.TaintNode?)
  }

  lemma {:induction false} OnlyTaintsMeaning(log: seq<Event>)
    ensures OnlyTaints(log) <==> forall e :: e in log ==> e.Did? && e.call.TaintNode?
  {
    if log != [] {
      OnlyTaintsMeaning(log[..|log| - 1]);
      assert log == log[..|log| - 1] + [log[|log| - 1]];
      assert log[|log| - 1] in log;
    }
  }

  lemma {:induction false} AttemptedMeaning(key: string, log: seq<Event>, node: string)
    ensures node in Attempted(key, log) <==> exists e :: e in log && e.Did? && e.call == TaintNode(node, key, "NoSchedule", false)
  {
    if log != [] {
      var before, e := log[..|log| - 1], log[|log| - 1];
      AttemptedMeaning(key, before, node);
      assert log == before + [e];
    }
  }

  lemma TaintedToo(nodes: set<string>, key: string, log: seq<Event>, n: string, err: Failure)
    requires TaintsOnce(nodes, key, log) && n !in nodes
    ensures TaintsOnce(nodes + {n}, key, log + [Did(TaintNode(n, key, NO_SCHEDULE, false), err)])
  {
    assert (log + [Did(TaintNode(n, key, NO_SCHEDULE, false), err)])[..|log|] == log;
  }

  method TaintNodes(world: World, nodes: set<string>, key: string) returns (ghost log: seq<Event>)
    modifies world`trace
    ensures world.trace == old(world.trace) + log
    ensures TaintsOnce(nodes, key, log)
  {
    log := [];
    var todo := nodes;
    ghost var done := {};
    while todo != {}
      invariant done + todo == nodes && done !! todo
      invariant world.trace == old(world.trace) + log
      invariant TaintsOnce(done, key, log)
      decreases todo
    {
      var n :| n in todo;
      var err := world.Do(TaintNode(n, key, NO_SCHEDULE, false));
      TaintedToo(done, key, log, n, err);
      log := log + [Did(TaintNode(n, key, NO_SCHEDULE, false), err)];
      todo, done := todo - {n}, done + {n};
    }
  }
}
