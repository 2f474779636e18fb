/** Look-ups and deletes of volume attachments running side by side: a reload lists and installs under the lock, a
    delete calls the API server without it and purges the cache under it. */
module VolumeAttachmentProtocol {
  import opened Kube
  import opened VolumeAttachments

  type Pid = nat

  datatype Proc =
    | Missed                                      // holds the lock, has not listed yet
    | Listed(items: seq<VolumeAttachment>)        // holds the lock, has not installed yet
    | Deleting(name: string)                      // the API server has answered, the purge is to come

  datatype State = State(api: map<string, VolumeAttachment>, cache: Cache, names: NameIndex, lock: Option<Pid>,
                         procs: map<Pid, Proc>)

  datatype Step =
    | Create(va: VolumeAttachment)
    | Vanish(name: string)                        // deleted by someone else
    | CallDelete(pid: Pid, name: string, removed: bool)
    | Purge(pid: Pid)
    | Miss(pid: Pid)
    | List(pid: Pid, items: seq<VolumeAttachment>)
    | ListFails(pid: Pid)
    | Install(pid: Pid)

  /** items lists the API server's attachments, each once, in any order. */
  ghost predicate Lists(items: seq<VolumeAttachment>, api: map<string, VolumeAttachment>) {
    && DistinctNames(items)
    && (forall i :: 0 <= i < |items| ==> items[i].name in api && api[items[i].name] == items[i])
    && (forall name :: name in api ==> exists i :: 0 <= i < |items| && items[i].name == name)
  }

  ghost predicate Init(s: State) {
    s == State(map[], map[], map[], None, map[])
  }

  ghost predicate Next(s: State, t: Step, s': State) {
    match t
    case Create(va) => va.name !in s.api && s' == s.(api := s.api[va.name := va])
    case Vanish(name) => name in s.api && s' == s.(api := s.api - {name})
    case CallDelete(pid, name, removed) =>
      && pid !in s.procs && (removed ==> name in s.api)
      && s' == s.(api := if removed then s.api - {name} else s.api, procs := s.procs[pid := Deleting(name)])
    case Purge(pid) =>
      && pid in s.procs && s.procs[pid].Deleting? && s.lock == None
      && var (cache, names) := Purged(s.cache, s.names, s.procs[pid].name);
         s' == s.(cache := cache, names := names, procs := s.procs - {pid})
    case Miss(pid) =>
      pid !in s.procs && s.lock == None && s' == s.(lock := Some(pid), procs := s.procs[pid := Missed])
    case List(pid, items) =>
      pid in s.procs && s.procs[pid].Missed? && Lists(items, s.api) && s' == s.(procs := s.procs[pid := Listed(items)])
    case ListFails(pid) =>
      pid in s.procs && s.procs[pid].Missed? && s' == s.(lock := None, procs := s.procs - {pid})
    case Install(pid) =>
      && pid in s.procs && s.procs[pid].Listed? && Rebuilt(s.procs[pid].items, s'.cache, s'.names)
      && s' == s.(cache := s'.cache, names := s'.names, lock := None, procs := s.procs - {pid})
  }

  /** States ss joined by steps ts. */
  ghost predicate Run(ss: seq<State>, ts: seq<Step>) {
    && |ss| == |ts| + 1
    && Init(ss[0])
    && forall i :: 0 <= i < |ts| ==> Next(ss[i], ts[i], ss[i + 1])
  }

  ghost predicate Inv(s: State) {
    && Coherent(s.cache, s.names)
    && (s.lock.Some? ==> s.lock.value in s.procs)
    && (forall pid :: pid in s.procs ==> (!s.procs[pid].Deleting? <==> s.lock == Some(pid)))
    && (forall pid :: pid in s.procs && s.procs[pid].Listed? ==> DistinctNames(s.procs[pid].items))
  }

  lemma StepKeepsInv(s: State, t: Step, s': State)
    requires Inv(s) && Next(s, t, s')
    ensures Inv(s')
  {
    match t
    case Purge(pid) => PurgeClears(s.cache, s.names, s.procs[pid].name);
    case Install(pid) => RebuildIsCoherent(s.procs[pid].items, s'.cache, s'.names);
    case _ =>
  }

  lemma {:induction false} RunKeepsInv(ss: seq<State>, ts: seq<Step>, i: nat)
    requires Run(ss, ts) && i < |ss|
    ensures Inv(ss[i])
  {
    if i > 0 {
      RunKeepsInv(ss, ts, i - 1);
      StepKeepsInv(ss[i - 1], ts[i - 1], ss[i]);
    }
  }

  /** Neither the API server, nor the cache, nor a list still to be installed knows the name. */
  ghost predicate Forgotten(s: State, name: string) {
    && name !in s.api
    && !Holds(s.cache, name)
    && forall pid :: pid in s.procs && s.procs[pid].Listed? ==>
                       forall i :: 0 <= i < |s.procs[pid].items| ==> s.procs[pid].items[i].name != name
  }

  lemma PurgeForgets(s: State, pid: Pid, s': State)
    requires Inv(s) && Next(s, Purge(pid), s') && s.procs[pid].name !in s'.api
    ensures Forgotten(s', s.procs[pid].name)
  {
    PurgeClears(s.cache, s.names, s.procs[pid].name);
  }

  lemma StepKeepsForgotten(s: State, t: Step, s': State, name: string)
    requires Inv(s) && Next(s, t, s') && Forgotten(s, name) && name !in s'.api
    ensures Forgotten(s', name)
  {
    match t
    case Purge(pid) => PurgeClears(s.cache, s.names, s.procs[pid].name);
    case Install(pid) => RebuildIsCoherent(s.procs[pid].items, s'.cache, s'.names);
    case _ =>
  }

  /** Once a delete has returned, and for as long as the API server does not hold the name again, no reachable state
      has a cache entry of that name, whatever reloads, deletes and creations ran in between. */
  lemma {:induction false} DeletedStaysOutOfCache(ss: seq<State>, ts: seq<Step>, i: nat, k: nat)
    requires Run(ss, ts) && i < k < |ss| && ts[i].Purge?
    requires ts[i].pid in ss[i].procs && ss[i].procs[ts[i].pid].Deleting?
    requires forall m :: i < m <= k ==> ss[i].procs[ts[i].pid].name !in ss[m].api
    ensures Forgotten(ss[k], ss[i].procs[ts[i].pid].name)
    ensures !Holds(ss[k].cache, ss[i].procs[ts[i].pid].name)
  {
    if k == i + 1 {
      RunKeepsInv(ss, ts, i);
      PurgeForgets(ss[i], ts[i].pid, ss[k]);
    } else {
      DeletedStaysOutOfCache(ss, ts, i, k - 1);
      StaysForgotten(ss, ts, k - 1, ss[i].procs[ts[i].pid].name);
    }
  }

  lemma StaysForgotten(ss: seq<State>, ts: seq<Step>, i: nat, name: string)
    requires Run(ss, ts) && i < |ts| && Forgotten(ss[i], name) && name !in ss[i + 1].api
    ensures Forgotten(ss[i + 1], name)
  {
    RunKeepsInv(ss, ts, i);
    StepKeepsForgotten(ss[i], ts[i], ss[i + 1], name);
  }

  // ---------------------------------------------------------------- hits answer the question

  predicate SlashFree(va: VolumeAttachment) { va.pv.Some? ==> '/' !in va.pv.value }

  /** Only attachments of volumes without a slash in their name are ever created. */
  ghost predicate CreatesSlashFree(ts: seq<Step>) {
    forall k :: 0 <= k < |ts| && ts[k].Create? ==> SlashFree(ts[k].va)
  }

  ghost predicate AllSlashFree(s: State) {
    && (forall name :: name in s.api ==> SlashFree(s.api[name]))
    && (forall key :: key in s.cache ==> SlashFree(s.cache[key]))
    && (forall pid :: pid in s.procs && s.procs[pid].Listed? ==>
          forall i :: 0 <= i < |s.procs[pid].items| ==> SlashFree(s.procs[pid].items[i]))
  }

  lemma StepKeepsSlashFree(s: State, t: Step, s': State)
    requires AllSlashFree(s) && Next(s, t, s') && (t.Create? ==> SlashFree(t.va))
    ensures AllSlashFree(s')
  {
    if t.Install? {
      forall key | key in s'.cache ensures SlashFree(s'.cache[key]) {
        FitIsListed(s.procs[t.pid].items, key);
        assert Lookup(s'.cache, key) == LastFit(s.procs[t.pid].items, key);
      }
    }
  }

  lemma {:induction false} RunStaysSlashFree(ss: seq<State>, ts: seq<Step>, i: nat)
    requires Run(ss, ts) && CreatesSlashFree(ts) && i < |ss|
    ensures AllSlashFree(ss[i])
  {
    if i > 0 {
      RunStaysSlashFree(ss, ts, i - 1);
      StepKeepsSlashFree(ss[i - 1], ts[i - 1], ss[i]);
    }
  }

  /** What a look-up may return in state s: a hit, or the last fitting item of a fresh list. */
  ghost predicate Answers(s: State, pv: string, node: string, va: VolumeAttachment) {
    || (CacheKey(pv, node) in s.cache && s.cache[CacheKey(pv, node)] == va)
    || exists items :: Lists(items, s.api) && LastFit(items, CacheKey(pv, node)) == Some(va)
  }

  /** In every reachable state a look-up returns an attachment of exactly the volume and node asked for, if no name of
      a volume holds a slash. */
  lemma AnswersAreRight(ss: seq<State>, ts: seq<Step>, i: nat, pv: string, node: string, va: VolumeAttachment)
    requires Run(ss, ts) && CreatesSlashFree(ts) && i < |ss| && Answers(ss[i], pv, node, va) && '/' !in pv
    ensures va.pv == Some(pv) && va.node == node
  {
    RunStaysSlashFree(ss, ts, i);
    var s, key := ss[i], CacheKey(pv, node);
    if key in s.cache && s.cache[key] == va {
      RunKeepsInv(ss, ts, i);
      assert Fits(s.cache[key], key);
    } else {
      var items :| Lists(items, s.api) && LastFit(items, key) == Some(va);
      FitIsListed(items, key);
    }
    KeysTellApart(va.pv.value, va.node, pv, node);
  }
}
