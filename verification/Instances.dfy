/** Watch handlers and clean-ups of the controller running side by side over the pods of a cluster, where a pod can
    be deleted and created again under the same name. Only the steps that touch a pod's identity are kept. */
module Instances {
  import Lock = PodLock

  type Gid = nat

  datatype Proc =
    | HandlerWaiting(key: string)
    | HandlerInside(key: string)                  // holds the lock
    | HandlerFetched(key: string, uid: string)    // read the pod
    | CleanupWaiting(key: string, uid: string)    // was given this instance
    | CleanupInside(key: string, uid: string)     // holds the lock
    | CleanupChecked(key: string, uid: string)    // found no record of another instance
    | CleanupDeleted(key: string, uid: string)    // the API server accepted its delete
    | Done(key: string)                           // about to give the lock back

  /** api: the live pods and their UIDs; used: every UID ever given out; info: the recorded UIDs (of
      PodKeyToControllerPodInfo); removed: the pods clean-ups deleted, oldest first; gone: every instance that was
      deleted by anyone, for each of which Deleted events may still arrive. */
  datatype State = State(api: map<string, string>, used: set<string>, info: map<string, string>, held: set<string>,
                         procs: map<Gid, Proc>, removed: seq<(string, string)>, gone: set<(string, string)>)

  datatype Step =
    | CreatePod(key: string, uid: string)
    | RemovePod(key: string)                      // deleted by someone else
    | DeletedEvent(key: string, uid: string)      // handled without the lock, and without a look at the UID
    | StartHandler(gid: Gid, key: string)
    | StartCleanup(gid: Gid, key: string, uid: string)
    | TakeLock(gid: Gid)
    | Fetch(gid: Gid)
    | Record(gid: Gid)
    | Check(gid: Gid)
    | GiveUp(gid: Gid)
    | ForceDelete(gid: Gid)
    | Forget(gid: Gid)
    | ReleaseLock(gid: Gid)

  ghost predicate Init(s: State) {
    s == State(map[], {}, map[], {}, map[], [], {})
  }

  function Moved(s: State, gid: Gid, p: Proc): State {
    s.(procs := s.procs[gid := p])
  }

  ghost predicate Next(s: State, t: Step, s': State) {
    match t
    case CreatePod(key, uid) =>
      key !in s.api && uid !in s.used && s' == s.(api := s.api[key := uid], used := s.used + {uid})
    case RemovePod(key) => key in s.api && s' == s.(api := s.api - {key}, gone := s.gone + {(key, s.api[key])})
    case DeletedEvent(key, uid) => (key, uid) in s.gone && s' == s.(info := s.info - {key})
    case StartHandler(gid, key) => gid !in s.procs && s' == Moved(s, gid, HandlerWaiting(key))
    // Whoever starts a clean-up may have read the instance long ago.
    case StartCleanup(gid, key, uid) => gid !in s.procs && uid in s.used && s' == Moved(s, gid, CleanupWaiting(key, uid))
    case TakeLock(gid) =>
      && gid in s.procs && (s.procs[gid].HandlerWaiting? || s.procs[gid].CleanupWaiting?) && s.procs[gid].key !in s.held
      && var p := s.procs[gid];
         s' == Moved(s, gid, if p.HandlerWaiting? then HandlerInside(p.key) else CleanupInside(p.key, p.uid))
               .(held := s.held + {p.key})
    case Fetch(gid) =>
      && gid in s.procs && s.procs[gid].HandlerInside?
      && var key := s.procs[gid].key;
         s' == Moved(s, gid, if key in s.api then HandlerFetched(key, s.api[key]) else Done(key))
    case Record(gid) =>
      && gid in s.procs && s.procs[gid].HandlerFetched?
      && var p := s.procs[gid];
         s' == Moved(s, gid, Done(p.key)).(info := s.info[p.key := p.uid])
    case Check(gid) =>
      && gid in s.procs && s.procs[gid].CleanupInside?
      && var p := s.procs[gid];
         s' == Moved(s, gid, if p.key in s.info && s.info[p.key] != p.uid then Done(p.key) else CleanupChecked(p.key, p.uid))
    // A handler that has nothing to record, or a clean-up that stops anywhere before its delete.
    case GiveUp(gid) =>
      && gid in s.procs && (s.procs[gid].HandlerFetched? || s.procs[gid].CleanupChecked?)
      && s' == Moved(s, gid, Done(s.procs[gid].key))
    // The delete carries the UID as its precondition.
    case ForceDelete(gid) =>
      && gid in s.procs && s.procs[gid].CleanupChecked?
      && var p := s.procs[gid];
         s' == if p.key in s.api && s.api[p.key] == p.uid
               then Moved(s, gid, CleanupDeleted(p.key, p.uid)).(api := s.api - {p.key}, removed := s.removed + [(p.key, p.uid)],
                                                                        gone := s.gone + {(p.key, p.uid)})
               else Moved(s, gid, Done(p.key))
    case Forget(gid) =>
      && gid in s.procs && s.procs[gid].CleanupDeleted?
      && var p := s.procs[gid];
         s' == Moved(s, gid, Done(p.key)).(info := s.info - {p.key})
    case ReleaseLock(gid) =>
      && gid in s.procs && s.procs[gid].Done?
      && s' == s.(held := s.held - {s.procs[gid].key}, procs := s.procs - {gid})
  }

  ghost predicate Run(ss: seq<State>, ts: seq<Step>) {
    && |ss| == |ts| + 1
    && Init(ss[0])
    && forall i :: 0 <= i < |ts| ==> Next(ss[i], ts[i], ss[i + 1])
  }

  // ---------------------------------------------------------------- the lock is the pod lock

  function LockView(p: Proc): Lock.Where {
    if p.HandlerWaiting? || p.CleanupWaiting? then Lock.Spinning(p.key) else Lock.Inside(p.key)
  }

  function Locks(s: State): Lock.State {
    Lock.State(s.held, map gid | gid in s.procs :: LockView(s.procs[gid]))
  }

  /** Seen through the lock, every step is a step of the lock's own machine, or none. */
  lemma StepsAreLockSteps(s: State, t: Step, s': State)
    requires Next(s, t, s')
    ensures Locks(s') == Locks(s) || exists u :: Lock.Next(Locks(s), u, Locks(s'))
  {
    match t
    case StartHandler(gid, key) => assert Lock.Next(Locks(s), Lock.Arrive(gid, key), Locks(s'));
    case StartCleanup(gid, key, uid) => assert Lock.Next(Locks(s), Lock.Arrive(gid, key), Locks(s'));
    case TakeLock(gid) => assert Lock.Next(Locks(s), Lock.Try(gid), Locks(s'));
    case ReleaseLock(gid) => assert Lock.Next(Locks(s), Lock.Leave(gid), Locks(s'));
    case _ => OtherStepsLeaveLocks(s, t, s');
  }

  lemma OtherStepsLeaveLocks(s: State, t: Step, s': State)
    requires Next(s, t, s') && !t.StartHandler? && !t.StartCleanup? && !t.TakeLock? && !t.ReleaseLock?
    ensures Locks(s') == Locks(s)
  {
    match t
    case Fetch(gid) => SameView(s, s', gid);
    case Record(gid) => SameView(s, s', gid);
    case Check(gid) => SameView(s, s', gid);
    case GiveUp(gid) => SameView(s, s', gid);
    case ForceDelete(gid) => SameView(s, s', gid);
    case Forget(gid) => SameView(s, s', gid);
    case _ =>
  }

  lemma SameView(s: State, s': State, gid: Gid)
    requires s'.held == s.held && gid in s.procs && gid in s'.procs && s'.procs == s.procs[gid := s'.procs[gid]]
    requires LockView(s'.procs[gid]) == LockView(s.procs[gid])
    ensures Locks(s') == Locks(s)
  {
    assert s'.procs.Keys == s.procs.Keys;
  }

  // ---------------------------------------------------------------- invariant

  predicate Cleaning(p: Proc) {
    p.CleanupChecked? || p.CleanupDeleted?
  }

  ghost predicate Inv(s: State) {
    && Lock.Exclusive(Locks(s))
    && UidsInv(s)
    // While a clean-up is past its check, nobody records another instance of its pod.
    && (forall gid :: gid in s.procs && Cleaning(s.procs[gid]) && s.procs[gid].key in s.info ==>
          s.info[s.procs[gid].key] == s.procs[gid].uid)
  }

  /** No UID is given out twice, and a removed one belongs to no live pod. */
  ghost predicate UidsInv(s: State) {
    && (forall key :: key in s.api ==> s.api[key] in s.used)
    && (forall k1, k2 :: k1 in s.api && k2 in s.api && s.api[k1] == s.api[k2] ==> k1 == k2)
    && (forall i :: 0 <= i < |s.removed| ==> s.removed[i].1 in s.used)
    && (forall i, key :: 0 <= i < |s.removed| && key in s.api ==> s.api[key] != s.removed[i].1)
    && (forall i, k :: 0 <= i < k < |s.removed| ==> s.removed[i].1 != s.removed[k].1)
    && GoneInv(s)
  }

  /** An instance that is gone is not live, and its UID is not given out again. */
  ghost predicate GoneInv(s: State) {
    forall g :: g in s.gone ==> g.1 in s.used && forall key :: key in s.api ==> s.api[key] != g.1
  }

  lemma StepKeepsGone(s: State, t: Step, s': State)
    requires UidsInv(s) && Next(s, t, s')
    ensures GoneInv(s') && s.gone <= s'.gone
  {
  }

  lemma StepKeepsUids(s: State, t: Step, s': State)
    requires UidsInv(s) && Next(s, t, s')
    ensures UidsInv(s')
  {
    StepKeepsGone(s, t, s');
  }

  lemma StepKeepsLock(s: State, t: Step, s': State)
    requires Lock.Exclusive(Locks(s)) && Next(s, t, s')
    ensures Lock.Exclusive(Locks(s'))
  {
    StepsAreLockSteps(s, t, s');
    if Locks(s') != Locks(s) {
      var u :| Lock.Next(Locks(s), u, Locks(s'));
      Lock.StepKeepsExclusive(Locks(s), u, Locks(s'));
    }
  }

  lemma StepKeepsRecords(s: State, t: Step, s': State, gid: Gid)
    requires Inv(s) && Next(s, t, s') && gid in s'.procs && Cleaning(s'.procs[gid]) && s'.procs[gid].key in s'.info
    ensures s'.info[s'.procs[gid].key] == s'.procs[gid].uid
  {
    if t.Record? && s.procs[t.gid].key == s'.procs[gid].key && gid != t.gid {
      var key := s.procs[t.gid].key;
      assert Lock.Holder(Locks(s), t.gid, key) && Lock.Holder(Locks(s), gid, key);
      assert false;
    }
  }

  lemma StepKeepsInv(s: State, t: Step, s': State)
    requires Inv(s) && Next(s, t, s')
    ensures Inv(s')
  {
    StepKeepsLock(s, t, s');
    StepKeepsUids(s, t, s');
    forall gid | gid in s'.procs && Cleaning(s'.procs[gid]) && s'.procs[gid].key in s'.info
      ensures s'.info[s'.procs[gid].key] == s'.procs[gid].uid
    {
      StepKeepsRecords(s, t, s', gid);
    }
  }

  lemma {:induction false} RunKeepsInv(ss: seq<State>, ts: seq<Step>, i: nat)
    requires Run(ss, ts) && i < |ss|
    ensures Inv(ss[i])
  {
    if i > 0 {
      RunKeepsInv(ss, ts, i - 1);
      StepKeepsInv(ss[i - 1], ts[i - 1], ss[i]);
    }
  }

  // ---------------------------------------------------------------- what every run guarantees

  /** No instance is removed twice by clean-ups, and an instance that was removed never runs again. */
  lemma RemovedOnce(ss: seq<State>, ts: seq<Step>, i: nat)
    requires Run(ss, ts) && i < |ss|
    ensures forall a, b :: 0 <= a < b < |ss[i].removed| ==> ss[i].removed[a].1 != ss[i].removed[b].1
    ensures forall a, key :: 0 <= a < |ss[i].removed| && key in ss[i].api ==> ss[i].api[key] != ss[i].removed[a].1
  {
    RunKeepsInv(ss, ts, i);
  }

  /** Where the clean-up a goroutine runs came from. */
  ghost predicate StartedFor(ts: seq<Step>, i: nat, gid: Gid, key: string, uid: string) {
    exists k :: 0 <= k < i && k < |ts| && ts[k] == StartCleanup(gid, key, uid)
  }

  predicate IsCleanup(p: Proc) {
    p.CleanupWaiting? || p.CleanupInside? || p.CleanupChecked? || p.CleanupDeleted?
  }

  /** A clean-up keeps the pod and the UID it was started with. */
  lemma {:induction false} CleanupsKeepTheirInstance(ss: seq<State>, ts: seq<Step>, i: nat, gid: Gid)
    requires Run(ss, ts) && i < |ss| && gid in ss[i].procs && IsCleanup(ss[i].procs[gid])
    ensures StartedFor(ts, i, gid, ss[i].procs[gid].key, ss[i].procs[gid].uid)
  {
    assert i > 0;
    var s, t, p := ss[i - 1], ts[i - 1], ss[i].procs[gid];
    assert Next(s, t, ss[i]);
    if t.StartCleanup? && t.gid == gid {
      assert ts[i - 1] == StartCleanup(gid, p.key, p.uid);
    } else {
      CleanupsKeepTheirInstance(ss, ts, i - 1, gid);
      var k :| 0 <= k < i - 1 && k < |ts| && ts[k] == StartCleanup(gid, p.key, p.uid);
    }
  }

  /** A clean-up removes nothing but the instance it was started for: whenever the list of removed pods grows, the
      entry is that instance, it was the live one just before, and no record named another. */
  lemma RemovesOnlyItsInstance(ss: seq<State>, ts: seq<Step>, i: nat)
    requires Run(ss, ts) && i < |ts| && ss[i + 1].removed != ss[i].removed
    ensures ts[i].ForceDelete? && ts[i].gid in ss[i].procs && ss[i].procs[ts[i].gid].CleanupChecked?
    ensures var p := ss[i].procs[ts[i].gid];
            && ss[i + 1].removed == ss[i].removed + [(p.key, p.uid)]
            && p.key in ss[i].api && ss[i].api[p.key] == p.uid
            && (p.key in ss[i].info ==> ss[i].info[p.key] == p.uid)
            && StartedFor(ts, i, ts[i].gid, p.key, p.uid)
  {
    RunKeepsInv(ss, ts, i);
    assert Next(ss[i], ts[i], ss[i + 1]);
    CleanupsKeepTheirInstance(ss, ts, i, ts[i].gid);
  }

  /** Dropping the record after a delete never drops the record of another instance, although Deleted events are
      handled without the lock. */
  lemma ForgetsOnlyItsRecord(ss: seq<State>, ts: seq<Step>, i: nat)
    requires Run(ss, ts) && i < |ts| && ts[i].Forget? && ts[i].gid in ss[i].procs
    ensures var p := ss[i].procs[ts[i].gid];
            && p.CleanupDeleted?
            && (p.key in ss[i].info ==> ss[i].info[p.key] == p.uid)
            && (p.key, p.uid) in ss[i].removed
    ensures forall key :: key in ss[i].info && key !in ss[i + 1].info ==>
              key == ss[i].procs[ts[i].gid].key && ss[i].info[key] == ss[i].procs[ts[i].gid].uid
  {
    RunKeepsInv(ss, ts, i);
    assert Next(ss[i], ts[i], ss[i + 1]);
    DeletedWasRemoved(ss, ts, i, ts[i].gid);
  }

  lemma {:induction false} DeletedWasRemoved(ss: seq<State>, ts: seq<Step>, i: nat, gid: Gid)
    requires Run(ss, ts) && i < |ss| && gid in ss[i].procs && ss[i].procs[gid].CleanupDeleted?
    ensures (ss[i].procs[gid].key, ss[i].procs[gid].uid) in ss[i].removed
  {
    assert i > 0;
    assert Next(ss[i - 1], ts[i - 1], ss[i]);
    if !(ts[i - 1].ForceDelete? && ts[i - 1].gid == gid) { DeletedWasRemoved(ss, ts, i - 1, gid); }
  }

  // ---------------------------------------------------------------- late Deleted events

  /** The record that a Deleted event drops, if any, is the deleted instance's. */
  ghost predicate DropsOnlyItsRecord(ss: seq<State>, ts: seq<Step>, i: nat)
    requires i < |ts| < |ss| && ts[i].DeletedEvent?
  {
    forall key :: key in ss[i].info && key !in ss[i + 1].info ==> key == ts[i].key && ss[i].info[key] == ts[i].uid
  }

  /** That is so exactly when the pod is not recorded, or is recorded with the UID of the event. */
  lemma DropsOnlyItsRecordIff(ss: seq<State>, ts: seq<Step>, i: nat)
    requires Run(ss, ts) && i < |ts| && ts[i].DeletedEvent?
    ensures DropsOnlyItsRecord(ss, ts, i) <==> (ts[i].key in ss[i].info ==> ss[i].info[ts[i].key] == ts[i].uid)
  {
    assert Next(ss[i], ts[i], ss[i + 1]);
  }

  lemma {:induction false} GoneStays(ss: seq<State>, ts: seq<Step>, i: nat, k: nat)
    requires Run(ss, ts) && i <= k < |ss|
    ensures ss[i].gone <= ss[k].gone
  {
    if i < k {
      GoneStays(ss, ts, i, k - 1);
      GoneGrows(ss, ts, k - 1);
    }
  }

  lemma GoneGrows(ss: seq<State>, ts: seq<Step>, i: nat)
    requires Run(ss, ts) && i < |ts|
    ensures ss[i].gone <= ss[i + 1].gone
  {
    RunKeepsInv(ss, ts, i);
    StepKeepsGone(ss[i], ts[i], ss[i + 1]);
  }

  /** And then nothing is lost: that instance is not live, now or ever after. */
  lemma ItsRecordIsDead(ss: seq<State>, ts: seq<Step>, i: nat, k: nat, key: string)
    requires Run(ss, ts) && i < |ts| && ts[i].DeletedEvent? && i <= k < |ss| && key in ss[k].api
    ensures ss[k].api[key] != ts[i].uid
  {
    assert Next(ss[i], ts[i], ss[i + 1]);
    GoneStays(ss, ts, i, k);
    RunKeepsInv(ss, ts, k);
    assert (ts[i].key, ts[i].uid) in ss[k].gone;
  }

  /** A handler started for the old instance reads and records the new one; then, with that handler done, the old
      one's Deleted event is handled. */
  const LATE := [CreatePod("p", "old"), StartHandler(1, "p"), TakeLock(1), RemovePod("p"), CreatePod("p", "new"), Fetch(1),
                 Record(1), ReleaseLock(1), DeletedEvent("p", "old")]

  function LateState(i: nat): State {
    if i == 0 then State(map[], {}, map[], {}, map[], [], {})
    else if i == 1 then State(map["p" := "old"], {"old"}, map[], {}, map[], [], {})
    else if i == 2 then State(map["p" := "old"], {"old"}, map[], {}, map[1 := HandlerWaiting("p")], [], {})
    else if i == 3 then State(map["p" := "old"], {"old"}, map[], {"p"}, map[1 := HandlerInside("p")], [], {})
    else if i == 4 then State(map[], {"old"}, map[], {"p"}, map[1 := HandlerInside("p")], [], {("p", "old")})
    else if i == 5 then State(map["p" := "new"], {"old", "new"}, map[], {"p"}, map[1 := HandlerInside("p")], [], {("p", "old")})
    else if i == 6 then State(map["p" := "new"], {"old", "new"}, map[], {"p"}, map[1 := HandlerFetched("p", "new")], [], {("p", "old")})
    else if i == 7 then State(map["p" := "new"], {"old", "new"}, map["p" := "new"], {"p"}, map[1 := Done("p")], [], {("p", "old")})
    else if i == 8 then State(map["p" := "new"], {"old", "new"}, map["p" := "new"], {}, map[], [], {("p", "old")})
    else State(map["p" := "new"], {"old", "new"}, map[], {}, map[], [], {("p", "old")})
  }

  /** A Deleted event that arrives late drops the record of the live, newer instance. */
  lemma LateDeleteDropsLiveRecord() returns (ss: seq<State>)
    ensures Run(ss, LATE)
    ensures ss[8].procs == map[] && ss[8].info == map["p" := "new"]
    ensures ss[9].info == map[] && ss[9].api == map["p" := "new"]
    ensures LATE[8] == DeletedEvent("p", "old") && !DropsOnlyItsRecord(ss, LATE, 8)
  {
    ss := seq(10, i requires 0 <= i < 10 => LateState(i));
    forall i | 0 <= i < |LATE| ensures Next(ss[i], LATE[i], ss[i + 1]) { LateStep(i); }
    assert "p" in ss[8].info && "p" !in ss[9].info;
  }

  lemma LateStep(i: nat)
    requires i < |LATE|
    ensures Next(LateState(i), LATE[i], LateState(i + 1))
  {
    if i == 0 { assert Next(LateState(0), LATE[0], LateState(1)); }
    else if i == 4 { assert {"old"} + {"new"} == {"old", "new"}; }
  }
}
