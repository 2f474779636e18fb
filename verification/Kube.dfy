/** The Kubernetes and CSI values podmon reads, reduced to the fields its protocol looks at. */
module Kube {

  datatype Option<+T> = None | Some(value: T)

  datatype Result<+T> = Ok(value: T) | Err(error: Error)

  /** A Go error: its text, and whether os.IsNotExist holds of it. */
  datatype Error = Error(message: string, notExist: bool)

  /** What a call that only returns an error answers; None is Go's nil. */
  type Failure = Option<Error>

  datatype Taint = Taint(key: string, value: string, effect: string, timeAdded: Option<int>)

  /** csiNodeID is the node ID annotation of the driver, or "" when it cannot be read. */
  datatype Node = Node(name: string, uid: string, csiNodeID: string, taints: seq<Taint>)

  datatype Phase = Pending | Running | Succeeded | Failed | Unknown

  /** isTrue is whether the condition's status is True; it may also be False or Unknown. */
  datatype Condition = Condition(kind: string, isTrue: bool)

  datatype ContainerStatus = ContainerStatus(id: string, waitingReason: Option<string>)

  datatype Pod = Pod(namespace: string, name: string, uid: string, nodeName: string, hostIP: string, phase: Phase,
                     conditions: seq<Condition>, containers: seq<ContainerStatus>, affinity: map<string, string>)

  /** csiHandle is None for a volume that is not a CSI volume. */
  datatype PersistentVolume = PersistentVolume(name: string, csiHandle: Option<string>, accessModes: seq<string>)

  datatype VolumeAttachment = VolumeAttachment(name: string, pv: Option<string>, node: string)

  const NO_SCHEDULE := "NoSchedule"
  const NO_EXECUTE := "NoExecute"

  predicate HasTaint(taints: seq<Taint>, key: string, effect: string) {
    exists i :: 0 <= i < |taints| && taints[i].key == key && taints[i].effect == effect
  }

  predicate OccursAt(s: string, part: string, i: int) {
    0 <= i <= |s| - |part| && s[i..i + |part|] == part
  }

  predicate Contains(s: string, part: string) {
    exists i :: 0 <= i <= |s| && OccursAt(s, part, i)
  }

  predicate HasSuffix(s: string, suffix: string) {
    |suffix| <= |s| && s[|s| - |suffix|..] == suffix
  }

  lemma SliceShift(s: string, j: int, n: int)
    requires 0 < j && 0 <= n && j + n <= |s|
    ensures s[1..][j - 1..j - 1 + n] == s[j..j + n]
  {
  }

  lemma OccurrencesShift(s: string, part: string)
    requires s != ""
    ensures forall j :: 0 < j <= |s| ==> (OccursAt(s, part, j) <==> OccursAt(s[1..], part, j - 1))
  {
    forall j | 0 < j <= |s| ensures OccursAt(s, part, j) <==> OccursAt(s[1..], part, j - 1) {
      if j + |part| <= |s| { SliceShift(s, j, |part|); }
    }
  }

  /** The position of the first occurrence of sep in s, or |s| when there is none. */
  function Index(s: string, sep: string): (i: nat)
    requires sep != ""
    ensures i <= |s|
    ensures i < |s| ==> OccursAt(s, sep, i)
    ensures forall j :: 0 <= j < i ==> !OccursAt(s, sep, j)
  {
    if |s| < |sep| then |s|
    else if OccursAt(s, sep, 0) then 0
    else
      OccurrencesShift(s, sep);
      1 + Index(s[1..], sep)
  }

  /** The second of the parts of s separated by sep, when there are at least two. */
  function SecondPart(s: string, sep: string): Option<string>
    requires sep != ""
  {
    var i := Index(s, sep);
    if i == |s| then None
    else
      var rest := s[i + |sep|..];
      Some(rest[..Index(rest, sep)])
  }

  function PodKey(namespace: string, name: string): string {
    namespace + "/" + name
  }

  function KeyOf(pod: Pod): string {
    PodKey(pod.namespace, pod.name)
  }

  /** Go's splitPodKey indexes the second part, so it needs a slash in the key. */
  function SplitPodKey(key: string): (string, string)
    requires '/' in key
  {
    SlashSplits(key);
    (key[..Index(key, "/")], SecondPart(key, "/").value)
  }

  lemma SlashAt(s: string, i: int)
    requires 0 <= i < |s|
    ensures OccursAt(s, "/", i) <==> s[i] == '/'
  {
    assert s[i..i + 1] == [s[i]];
  }

  lemma SlashSplits(s: string)
    ensures Index(s, "/") < |s| <==> '/' in s
    ensures '/' !in s[..Index(s, "/")]
  {
    forall i | 0 <= i < |s| ensures OccursAt(s, "/", i) <==> s[i] == '/' {
      SlashAt(s, i);
    }
  }

  function Slashes(s: string): nat {
    if s == "" then 0 else Slashes(s[..|s| - 1]) + if s[|s| - 1] == '/' then 1 else 0
  }

  /** A key that a namespace and a name without slashes make. */
  predicate IsPodKey(key: string) {
    Slashes(key) == 1
  }

  lemma {:induction false} SlashesOn(a: string, b: string)
    ensures Slashes(a + b) == Slashes(a) + Slashes(b)
  {
    if b == "" {
      assert a + b == a;
    } else {
      SlashesOn(a, b[..|b| - 1]);
      assert (a + b)[..|a + b| - 1] == a + b[..|b| - 1];
    }
  }

  lemma {:induction false} NoSlashes(s: string)
    ensures Slashes(s) == 0 <==> '/' !in s
  {
    if s != "" {
      NoSlashes(s[..|s| - 1]);
      assert s == s[..|s| - 1] + [s[|s| - 1]];
    }
  }

  /** Such a key splits into the two parts it was made of. */
  lemma KeySplits(key: string)
    requires IsPodKey(key)
    ensures '/' in key && PodKey(SplitPodKey(key).0, SplitPodKey(key).1) == key
  {
    NoSlashes(key);
    SlashSplits(key);
    var i := Index(key, "/");
    var a, b := key[..i], key[i + 1..];
    assert OccursAt(key, "/", i);
    SlashAt(key, i);
    assert key == a + "/" + b;
    SlashesOn(a + "/", b);
    SlashesOn(a, "/");
    assert Slashes("/") == 1 by { assert "/"[..0] == ""; }
    NoSlashes(b);
    SlashSplits(b);
    assert b[..Index(b, "/")] == b;
  }

  lemma FirstSlash(a: string, b: string)
    requires '/' !in a
    ensures Index(a + "/" + b, "/") == |a|
  {
    var s := a + "/" + b;
    forall i | 0 <= i <= |a| ensures OccursAt(s, "/", i) <==> i == |a| {
      SlashAt(s, i);
      if i < |a| { assert s[i] == a[i] && a[i] in a; }
    }
    SlashSplits(s);
    assert s[|a|] == '/' && '/' in s;
  }

  /** Splitting undoes joining exactly when neither part holds a slash. */
  lemma SplitUndoesJoin(namespace: string, name: string)
    ensures '/' in PodKey(namespace, name)
    ensures SplitPodKey(PodKey(namespace, name)) == (namespace, name) <==> '/' !in namespace && '/' !in name
    ensures '/' !in namespace && '/' !in name <==> IsPodKey(PodKey(namespace, name))
  {
    var key := PodKey(namespace, name);
    SlashesOn(namespace + "/", name);
    SlashesOn(namespace, "/");
    assert Slashes("/") == 1 by { assert "/"[..0] == ""; }
    NoSlashes(namespace);
    NoSlashes(name);
    assert key[|namespace|] == '/';
    SlashSplits(key);
    if '/' !in namespace {
      FirstSlash(namespace, name);
      assert key[|namespace| + |"/"|..] == name;
      assert key[..|namespace|] == namespace;
      assert SplitPodKey(key) == (namespace, name[..Index(name, "/")]);
      SlashSplits(name);
      if '/' !in name { assert name[..|name|] == name; }
    } else {
      assert SplitPodKey(key).0 != namespace;
    }
  }
}
