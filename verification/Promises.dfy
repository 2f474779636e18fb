/** The words the safety results are stated in: what was read or answered, spelled out. No operation uses them. */
module Promises {
  import opened Kube
  import opened World

  // ---------------------------------------------------------------- the driver's answers

  predicate SaysConnected(reply: Result<Reply>) { reply.Ok? && reply.value.connected }

  /** The array says that the host is not connected, or that it does not know the host. */
  predicate SaysDisconnected(reply: Result<Reply>) {
    match reply
    case Ok(answer) => !answer.connected
    case Err(e) => Contains(e.message, "there is no corresponding SDC")
  }

  /** Any other error. */
  predicate SaysNothing(reply: Result<Reply>) {
    reply.Err? && !Contains(reply.error.message, "there is no corresponding SDC")
  }

  /** The array's answer does not forbid to clean up: the host is not connected, unless it may just have come back, and
      idle, unless a volume is shared; or it is unknown. */
  predicate Clears(reply: Result<Reply>, mayBeBack: bool, pvs: seq<PersistentVolume>) {
    match reply
    case Ok(answer) => (answer.connected ==> mayBeBack) && (answer.iosInProgress ==> AnyShared(pvs))
    case Err(e) => Contains(e.message, "there is no corresponding SDC")
  }

  predicate AnyShared(pvs: seq<PersistentVolume>) {
    exists i, k :: 0 <= i < |pvs| && 0 <= k < |pvs[i].accessModes| && pvs[i].accessModes[k] in ["RWX", "ReadWriteMany"]
  }

  predicate SaysNotFound(err: Failure) { err.Some? && Contains(err.value.message, "not found") }

  // ---------------------------------------------------------------- pods and nodes

  predicate HasKeyEffect(node: Node, key: string, effect: string) {
    exists i :: 0 <= i < |node.taints| && node.taints[i].key == key && node.taints[i].effect == effect
  }

  predicate IsUnreachable(node: Node, effect: string) {
    HasKeyEffect(node, "node.kubernetes.io/unreachable", effect)
  }

  /** The last condition of kind "Ready" is true. */
  predicate SaysReady(pod: Pod) {
    exists i :: 0 <= i < |pod.conditions| && pod.conditions[i] == Condition("Ready", true) &&
                forall k :: i < k < |pod.conditions| ==> pod.conditions[k].kind != "Ready"
  }

  predicate CrashLoops(pod: Pod) {
    exists i :: 0 <= i < |pod.containers| && pod.containers[i].waitingReason == Some("CrashLoopBackOff")
  }

  // ---------------------------------------------------------------- strings

  /** The text of an error ends in "pending". */
  predicate EndsInPending(err: Failure) {
    err.Some? && |err.value.message| >= 7 && err.value.message[|err.value.message| - 7..] == "pending"
  }

  /** A helper that retries repeats its call only after an error that ends in "pending", as long as it may, and returns the
      last answer. */
  lemma OnlyPendingIsRetried(call: Call, max: int, err: Failure, log: seq<Event>)
    requires RetryRun(call, max, err, log)
    ensures var n := |log| - 1;
            && 0 <= n && log[n] == Finished(call, err)
            && (max <= 0 ==> n == 0 && err == None)
            && (0 < max ==> 1 <= n <= max && log[n - 1] == Did(call, err) && forall i :: 0 <= i < n ==> log[i] == Did(call, log[i].err))
            && (forall i :: 0 <= i < n - 1 ==> EndsInPending(log[i].err))
            && (0 < n < max ==> !EndsInPending(err))
  {
    forall i | 0 <= i < |log| - 1 ensures IsPending(log[i].err) <==> EndsInPending(log[i].err) {}
  }

  predicate Framed(s: string, before: string, part: string, behind: string) { s == before + part + behind }

  lemma ContainsMeaning(s: string, part: string)
    ensures Contains(s, part) <==> exists before, behind :: Framed(s, before, part, behind)
  {
    if Contains(s, part) {
      var i :| 0 <= i <= |s| && OccursAt(s, part, i);
      assert s == s[..i] + s[i..i + |part|] + s[i + |part|..];
      assert Framed(s, s[..i], part, s[i + |part|..]);
    }
    if before, behind :| Framed(s, before, part, behind) {
      assert s[|before|..|before| + |part|] == part;
      assert OccursAt(s, part, |before|);
    }
  }

  /** A container ID: the runtime's name, "//", the ID the runtime lists, and whatever follows another "//". */
  predicate IsContainerID(containerID: string, runtime: string, id: string, tail: string) {
    && containerID == runtime + "//" + id + tail && !Contains(runtime + "/", "//")
    && if tail == "" then !Contains(id, "//") else "//" <= tail && !Contains(id + "/", "//")
  }

  lemma SameStart(s: string, start: string, i: nat)
    requires start <= s && i + 2 <= |start|
    ensures OccursAt(s, "//", i) <==> OccursAt(start, "//", i)
  {
    assert s[i..i + 2] == start[i..i + 2];
  }

  lemma FirstDoubleSlash(start: string, rest: string)
    ensures Index(start + "//" + rest, "//") == |start| <==> !Contains(start + "/", "//")
  {
    var s := start + "//" + rest;
    assert s[|start|..|start| + 2] == "//";
    assert OccursAt(s, "//", |start|);
    assert start + "/" <= s;
    forall i | 0 <= i < |start| ensures OccursAt(s, "//", i) <==> OccursAt(start + "/", "//", i) { SameStart(s, start + "/", i); }
  }

  lemma NoDoubleSlash(s: string)
    ensures Index(s, "//") == |s| <==> !Contains(s, "//")
  {
  }

  /** The part between the first two occurrences of "//" is what a container ID of that shape holds. */
  lemma SecondPartIff(containerID: string, id: string)
    ensures SecondPart(containerID, "//") == Some(id) <==> exists runtime, tail :: IsContainerID(containerID, runtime, id, tail)
  {
    if SecondPart(containerID, "//") == Some(id) { HasSecondPart(containerID, id); }
    if runtime, tail :| IsContainerID(containerID, runtime, id, tail) { IDIsSecondPart(containerID, runtime, id, tail); }
  }

  lemma IDIsSecondPart(containerID: string, runtime: string, id: string, tail: string)
    requires IsContainerID(containerID, runtime, id, tail)
    ensures SecondPart(containerID, "//") == Some(id)
  {
    FirstDoubleSlash(runtime, id + tail);
    assert containerID == runtime + "//" + (id + tail);
    assert containerID[|runtime| + 2..] == id + tail;
    EndOfPart(id, tail);
  }

  lemma EndOfPart(id: string, tail: string)
    requires if tail == "" then !Contains(id, "//") else "//" <= tail && !Contains(id + "/", "//")
    ensures (id + tail)[..Index(id + tail, "//")] == id
  {
    if tail == "" {
      assert id + tail == id;
      NoDoubleSlash(id);
    } else {
      FirstDoubleSlash(id, tail[2..]);
      assert id + "//" + tail[2..] == id + tail;
    }
  }

  /** What the first "//" of a string divides it into. */
  lemma Halves(s: string) returns (start: string, rest: string)
    requires Index(s, "//") < |s|
    ensures start == s[..Index(s, "//")] && rest == s[Index(s, "//") + 2..] && s == start + "//" + rest && !Contains(start + "/", "//")
  {
    var i := Index(s, "//");
    start, rest := s[..i], s[i + 2..];
    assert s == start + s[i..i + 2] + rest;
    FirstDoubleSlash(start, rest);
  }

  lemma HasSecondPart(containerID: string, id: string)
    requires SecondPart(containerID, "//") == Some(id)
    ensures exists runtime, tail :: IsContainerID(containerID, runtime, id, tail)
  {
    var runtime, rest := Halves(containerID);
    var tail := TailOf(rest, id);
    assert containerID == runtime + "//" + id + tail;
    assert IsContainerID(containerID, runtime, id, tail);
  }

  lemma TailOf(rest: string, id: string) returns (tail: string)
    requires rest[..Index(rest, "//")] == id
    ensures rest == id + tail && if tail == "" then !Contains(id, "//") else "//" <= tail && !Contains(id + "/", "//")
  {
    if Index(rest, "//") < |rest| {
      var start, behind := Halves(rest);
      tail := "//" + behind;
      assert rest == id + tail;
    } else {
      NoDoubleSlash(rest);
      assert rest == rest[..|rest|];
      tail := "";
    }
  }
}
