/** The per-pod lock: one shared table, LoadOrStore to take a key and Delete to give it back. */
module PodLock {

  type Gid = nat

  /** Where a goroutine is: spinning for a key, or between Lock and the deferred Unlock. */
  datatype Where = Spinning(key: string) | Inside(key: string)

  /** held is the key set of PodKeyMap; the table does not say who holds a key. */
  datatype State = State(held: set<string>, goroutines: map<Gid, Where>)

  datatype Step = Arrive(gid: Gid, key: string) | Try(gid: Gid) | Leave(gid: Gid)

  ghost predicate Init(s: State) {
    s == State({}, map[])
  }

  ghost predicate Next(s: State, t: Step, s': State) {
    match t
    case Arrive(gid, key) => gid !in s.goroutines && s' == s.(goroutines := s.goroutines[gid := Spinning(key)])
    case Try(gid) =>
      && gid in s.goroutines && s.goroutines[gid].Spinning?
      && var key := s.goroutines[gid].key;
         s' == if key in s.held then s else State(s.held + {key}, s.goroutines[gid := Inside(key)])
    case Leave(gid) =>
      && gid in s.goroutines && s.goroutines[gid].Inside?
      && s' == State(s.held - {s.goroutines[gid].key}, s.goroutines - {gid})
  }

  ghost predicate Run(ss: seq<State>, ts: seq<Step>) {
    && |ss| == |ts| + 1
    && Init(ss[0])
    && forall i :: 0 <= i < |ts| ==> Next(ss[i], ts[i], ss[i + 1])
  }

  predicate Holder(s: State, gid: Gid, key: string) {
    gid in s.goroutines && s.goroutines[gid] == Inside(key)
  }

  /** A key is in the table exactly when some goroutine is inside for it, and never two. */
  ghost predicate Exclusive(s: State) {
    && (forall key :: key in s.held <==> exists gid :: Holder(s, gid, key))
    && (forall a, b, key :: Holder(s, a, key) && Holder(s, b, key) ==> a == b)
  }

  lemma StepKeepsExclusive(s: State, t: Step, s': State)
    requires Exclusive(s) && Next(s, t, s')
    ensures Exclusive(s')
  {
    forall key | key in s'.held ensures exists gid :: Holder(s', gid, key) {
      if key in s.held {
        var gid :| Holder(s, gid, key);
        assert t.Leave? ==> Holder(s, t.gid, s.goroutines[t.gid].key);
        assert Holder(s', gid, key);
      } else {
        assert Holder(s', t.gid, key);
      }
    }
    forall gid, key | Holder(s', gid, key) ensures key in s'.held {
      if gid != t.gid { assert Holder(s, gid, key); }
      if t.Leave? { assert Holder(s, t.gid, s.goroutines[t.gid].key); }
    }
    forall a, b, key | Holder(s', a, key) && Holder(s', b, key) ensures a == b {
      if a != t.gid { assert Holder(s, a, key); }
      if b != t.gid { assert Holder(s, b, key); }
    }
  }

  /** Mutual exclusion, for any number of goroutines over any keys. */
  lemma {:induction false} MutualExclusion(ss: seq<State>, ts: seq<Step>, i: nat)
    requires Run(ss, ts) && i < |ss|
    ensures Exclusive(ss[i])
  {
    if i > 0 {
      MutualExclusion(ss, ts, i - 1);
      StepKeepsExclusive(ss[i - 1], ts[i - 1], ss[i]);
    }
  }

  /** A try gets the lock exactly when nobody is inside for the same key: other keys never stand in the way. */
  lemma TrySucceedsIffFree(ss: seq<State>, ts: seq<Step>, i: nat, gid: Gid, s': State)
    requires Run(ss, ts) && i < |ss| && gid in ss[i].goroutines && ss[i].goroutines[gid].Spinning?
    requires Next(ss[i], Try(gid), s')
    ensures Holder(s', gid, ss[i].goroutines[gid].key) <==>
            forall other :: !Holder(ss[i], other, ss[i].goroutines[gid].key)
    ensures forall other, key :: key != ss[i].goroutines[gid].key ==> (Holder(s', other, key) <==> Holder(ss[i], other, key))
  {
    MutualExclusion(ss, ts, i);
    var key := ss[i].goroutines[gid].key;
    if key in ss[i].held {
      var other :| Holder(ss[i], other, key);
    }
  }
}
