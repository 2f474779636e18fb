/** Adding and removing a taint on a node object. */
module Taints {
  import opened Kube

  datatype Operation = TaintAdd | TaintRemove | TaintAlreadyExists | TaintDoesNotExist

  predicate Matches(t: Taint, key: string, effect: string) {
    t.key == key && t.effect == effect
  }

  /** The taints of other keys or effects, in order. */
  function Others(taints: seq<Taint>, key: string, effect: string): seq<Taint> {
    if taints == [] then []
    else
      var last := taints[|taints| - 1];
      var before := Others(taints[..|taints| - 1], key, effect);
      if Matches(last, key, effect) then before else before + [last]
  }

  function Count(taints: seq<Taint>, key: string, effect: string): nat {
    if taints == [] then 0
    else Count(taints[..|taints| - 1], key, effect) + if Matches(taints[|taints| - 1], key, effect) then 1 else 0
  }

  /** The list after a request; now is the time stamped on a new taint. */
  function Updated(taints: seq<Taint>, key: string, effect: string, remove: bool, now: int): seq<Taint> {
    if HasTaint(taints, key, effect) != remove then taints
    else if remove then Others(taints, key, effect)
    else [Taint(key, "", effect, Some(now))] + taints
  }

  /** The part of a Node object that podmon changes in place. */
  class NodeObject {
    var taints: seq<Taint>

    constructor (taints: seq<Taint>)
      ensures this.taints == taints
    {
      this.taints := taints;
    }

    method TaintExists(key: string, effect: string) returns (found: bool)
      ensures found <==> HasTaint(taints, key, effect)
    {
      for i := 0 to |taints|
        invariant forall k :: 0 <= k < i ==> !Matches(taints[k], key, effect)
      {
        if Matches(taints[i], key, effect) { return true; }
      }
      found := false;
    }

    method UpdateTaint(key: string, effect: string, remove: bool, now: int) returns (operation: Operation, shouldPatch: bool)
      modifies this
      ensures taints == Updated(old(taints), key, effect, remove, now)
      ensures shouldPatch <==> HasTaint(old(taints), key, effect) == remove
      ensures operation == if shouldPatch then (if remove then TaintRemove else TaintAdd)
                           else if remove then TaintDoesNotExist else TaintAlreadyExists
    {
      var found := TaintExists(key, effect);
      if remove {
        if !found { return TaintDoesNotExist, false; }
        var updated: seq<Taint> := [];
        for i := 0 to |taints|
          invariant updated == Others(taints[..i], key, effect)
        {
          assert taints[..i + 1][..i] == taints[..i];
          if !Matches(taints[i], key, effect) { updated := updated + [taints[i]]; }
        }
        assert taints[..|taints|] == taints;
        taints := updated;
        return TaintRemove, true;
      } else {
        if found { return TaintAlreadyExists, false; }
        taints := [Taint(key, "", effect, Some(now))] + taints;
        return TaintAdd, true;
      }
    }
  }

  // ---------------------------------------------------------------- laws

  lemma {:induction false} CountMeaning(taints: seq<Taint>, key: string, effect: string)
    ensures HasTaint(taints, key, effect) <==> Count(taints, key, effect) > 0
    ensures Count(taints, key, effect) == 0 ==> Others(taints, key, effect) == taints
  {
    if taints != [] {
      var before, last := taints[..|taints| - 1], taints[|taints| - 1];
      CountMeaning(before, key, effect);
      assert before + [last] == taints;
      if HasTaint(before, key, effect) {
        var i :| 0 <= i < |before| && before[i].key == key && before[i].effect == effect;
        assert taints[i] == before[i];
      }
    }
  }

  lemma {:induction false} OthersOf(taints: seq<Taint>, key: string, effect: string, key2: string, effect2: string)
    ensures Count(Others(taints, key, effect), key2, effect2) ==
            if key2 == key && effect2 == effect then 0 else Count(taints, key2, effect2)
  {
    if taints != [] {
      var before, last := taints[..|taints| - 1], taints[|taints| - 1];
      OthersOf(before, key, effect, key2, effect2);
      if !Matches(last, key, effect) { CountOn(Others(before, key, effect), last, key2, effect2); }
    }
  }

  lemma CountOn(taints: seq<Taint>, t: Taint, key: string, effect: string)
    ensures Count(taints + [t], key, effect) == Count(taints, key, effect) + if Matches(t, key, effect) then 1 else 0
  {
    assert (taints + [t])[..|taints|] == taints;
  }

  lemma {:induction false} Prepended(t: Taint, taints: seq<Taint>, key: string, effect: string)
    ensures Others([t] + taints, key, effect) == (if Matches(t, key, effect) then [] else [t]) + Others(taints, key, effect)
    ensures Count([t] + taints, key, effect) == (if Matches(t, key, effect) then 1 else 0) + Count(taints, key, effect)
  {
    var all := [t] + taints;
    if taints == [] {
      assert all == [t] && all[..0] == [];
    } else {
      Prepended(t, taints[..|taints| - 1], key, effect);
      assert all[..|all| - 1] == [t] + taints[..|taints| - 1];
    }
  }

  /** Adding a taint that is not there and removing it again gives back the exact list. */
  lemma AddThenRemove(taints: seq<Taint>, key: string, effect: string, t1: int, t2: int)
    requires !HasTaint(taints, key, effect)
    ensures Updated(Updated(taints, key, effect, false, t1), key, effect, true, t2) == taints
  {
    CountMeaning(taints, key, effect);
    var added := Updated(taints, key, effect, false, t1);
    assert Matches(added[0], key, effect);
    Prepended(added[0], taints, key, effect);
  }

  /** One request: the taint is there exactly if it was not a removal, a second request changes nothing, and every
      other taint keeps its place in the order. */
  lemma OneRequest(taints: seq<Taint>, key: string, effect: string, remove: bool, now: int, again: int)
    ensures HasTaint(Updated(taints, key, effect, remove, now), key, effect) <==> !remove
    ensures Updated(Updated(taints, key, effect, remove, now), key, effect, remove, again) == Updated(taints, key, effect, remove, now)
    ensures Others(Updated(taints, key, effect, remove, now), key, effect) == Others(taints, key, effect)
    ensures Updated(taints, key, effect, remove, now) != taints && !remove ==>
              Updated(taints, key, effect, remove, now)[0] == Taint(key, "", effect, Some(now))
  {
    var updated := Updated(taints, key, effect, remove, now);
    CountMeaning(taints, key, effect);
    CountMeaning(updated, key, effect);
    OthersOf(taints, key, effect, key, effect);
    CountMeaning(Others(taints, key, effect), key, effect);
    if HasTaint(taints, key, effect) == remove && !remove { Prepended(updated[0], taints, key, effect); }
  }

  datatype Request = Request(key: string, effect: string, remove: bool, now: int)

  /** The list after a sequence of requests, oldest first. */
  function AfterAll(taints: seq<Taint>, requests: seq<Request>): seq<Taint> {
    if requests == [] then taints
    else
      var last := requests[|requests| - 1];
      Updated(AfterAll(taints, requests[..|requests| - 1]), last.key, last.effect, last.remove, last.now)
  }

  /** The last request for this key and effect, if any. */
  function LastFor(requests: seq<Request>, key: string, effect: string): Option<Request> {
    if requests == [] then None
    else
      var last := requests[|requests| - 1];
      if last.key == key && last.effect == effect then Some(last) else LastFor(requests[..|requests| - 1], key, effect)
  }

  /** Presence is decided by the last request for the taint; without one it is as it was. A taint that occurred at
      most once still does. */
  lemma {:induction false} LastRequestDecides(taints: seq<Taint>, requests: seq<Request>, key: string, effect: string)
    ensures HasTaint(AfterAll(taints, requests), key, effect) <==>
            match LastFor(requests, key, effect)
            case Some(request) => !request.remove
            case None => HasTaint(taints, key, effect)
    ensures Count(taints, key, effect) <= 1 ==> Count(AfterAll(taints, requests), key, effect) <= 1
  {
    if requests != [] {
      var last := requests[|requests| - 1];
      LastRequestDecides(taints, requests[..|requests| - 1], key, effect);
      CountAfter(AfterAll(taints, requests[..|requests| - 1]), last.key, last.effect, last.remove, last.now, key, effect);
    }
  }

  lemma CountAfter(taints: seq<Taint>, key: string, effect: string, remove: bool, now: int, key2: string, effect2: string)
    ensures var updated := Updated(taints, key, effect, remove, now);
            if key2 == key && effect2 == effect
            then (HasTaint(updated, key2, effect2) <==> !remove) &&
                 (Count(taints, key2, effect2) <= 1 ==> Count(updated, key2, effect2) <= 1)
            else Count(updated, key2, effect2) == Count(taints, key2, effect2) &&
                 (HasTaint(updated, key2, effect2) <==> HasTaint(taints, key2, effect2))
  {
    var updated := Updated(taints, key, effect, remove, now);
    OneRequest(taints, key, effect, remove, now, 0);
    CountMeaning(taints, key2, effect2);
    CountMeaning(updated, key2, effect2);
    OthersOf(taints, key, effect, key2, effect2);
    if HasTaint(taints, key, effect) == remove && !remove { Prepended(updated[0], taints, key2, effect2); }
  }
}
