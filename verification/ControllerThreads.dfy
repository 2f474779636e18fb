/** The controller's goroutines side by side: handlers, the monitor and clean-ups make their calls in any interleaving, and
    what they find in the shared tables may be anything. */
module ControllerThreads {
  import opened Kube
  import opened World
  import opened Monitor
  import opened ControllerCleanup
  import opened CleanupSafety
  import opened ControllerHandler
  import opened HandlerSafety
  import opened ArrayMonitor
  import opened HandOffs
  import opened MonitorSafety
  import ControllerRuns

  /** What a goroutine is for. Handlers and clean-ups keep what they met in the tables. */
  datatype Work =
    | Handler(handling: Handling, infos: map<string, PodInfo>, counts: map<string, nat>)
    | NodeHandler(log: seq<Event>)
    | Cleanup(job: Job, stale: bool, run: Run)
    | Polling(rounds: seq<Round>)

  /** A goroutine, all it will ever write, and how long the trace was when it was started. */
  datatype Thread = Thread(work: Work, log: seq<Event>, born: nat)

  function LogOfWork(c: Config, w: Work): seq<Event> {
    match w
    case Handler(h, infos, counts) => h.Log(c, infos, counts)
    case NodeHandler(log) => log
    case Cleanup(_, _, r) => r.Flat()
    case Polling(rounds) => LogOf(rounds)
  }

  /** What the program's methods can do. */
  ghost predicate Sound(c: Config, t: Thread) {
    && t.log == LogOfWork(c, t.work)
    && match t.work
       case Handler(h, _, _) => h.Answered()
       case NodeHandler(log) => OnlyValidations(log)
       case Cleanup(job, stale, r) => CleanupRun(job, stale, r)
       case Polling(rounds) => MonitorRun(c, rounds)
  }

  /** trace: which goroutine wrote what; done[k]: how much of its log goroutine k has written. */
  datatype State = State(threads: seq<Thread>, done: seq<nat>, trace: seq<(nat, Event)>)

  datatype Step = Start(thread: Thread) | Advance(k: nat)

  ghost predicate Init(s: State) {
    s == State([], [], [])
  }

  /** Goroutine k is a handler that has started this clean-up. */
  predicate Spawned(c: Config, s: State, k: nat, job: Job) {
    && k < |s.threads| && k < |s.done| && s.threads[k].work.Handler?
    && s.threads[k].work.handling.Spawned(c, s.threads[k].work.infos) == Some(job)
    && s.done[k] == |s.threads[k].log|
  }

  ghost predicate Next(c: Config, s: State, t: Step, s': State) {
    match t
    case Start(thread) =>
      && Sound(c, thread) && thread.born == |s.trace|
      && (thread.work.Cleanup? ==> exists k :: 0 <= k < |s.threads| && Spawned(c, s, k, thread.work.job))
      && s' == State(s.threads + [thread], s.done + [0], s.trace)
    case Advance(k) =>
      && k < |s.threads| && k < |s.done| && s.done[k] < |s.threads[k].log|
      && s' == State(s.threads, s.done[k := s.done[k] + 1], s.trace + [(k, s.threads[k].log[s.done[k]])])
  }

  ghost predicate Run(c: Config, ss: seq<State>, ts: seq<Step>) {
    && |ss| == |ts| + 1
    && Init(ss[0])
    && forall i :: 0 <= i < |ts| ==> StepAt(c, ss, ts, i)
  }

  ghost predicate StepAt(c: Config, ss: seq<State>, ts: seq<Step>, i: nat)
    requires i < |ts| && |ss| == |ts| + 1
  {
    Next(c, ss[i], ts[i], ss[i + 1])
  }

  // ---------------------------------------------------------------- where an event comes from

  /** How many events of the trace goroutine k wrote. */
  function Written(trace: seq<(nat, Event)>, k: nat): nat {
    if trace == [] then 0 else Written(trace[..|trace| - 1], k) + if trace[|trace| - 1].0 == k then 1 else 0
  }

  function Events(trace: seq<(nat, Event)>): seq<Event> {
    if trace == [] then [] else Events(trace[..|trace| - 1]) + [trace[|trace| - 1].1]
  }

  /** After the trace before, x comes from its goroutine's own log, at the position that is next. */
  ghost predicate Wrote(c: Config, threads: seq<Thread>, before: seq<(nat, Event)>, x: (nat, Event)) {
    var q := Written(before, x.0);
    && x.0 < |threads| && q < |threads[x.0].log| && x.1 == threads[x.0].log[q]
    && threads[x.0].born <= |before|
  }

  ghost predicate AllWrote(c: Config, threads: seq<Thread>, trace: seq<(nat, Event)>) {
    trace == [] ||
    var before := trace[..|trace| - 1];
    AllWrote(c, threads, before) && Wrote(c, threads, before, trace[|trace| - 1])
  }

  lemma {:induction false} WroteAt(c: Config, threads: seq<Thread>, trace: seq<(nat, Event)>, p: nat)
    requires AllWrote(c, threads, trace) && p < |trace|
    ensures Wrote(c, threads, trace[..p], trace[p])
  {
    if p < |trace| - 1 {
      WroteAt(c, threads, trace[..|trace| - 1], p);
      assert trace[..|trace| - 1][..p] == trace[..p];
    }
  }

  /** The clean-up was justified by what had been written when it was started. */
  ghost predicate BornJustified(c: Config, t: Thread, trace: seq<(nat, Event)>) {
    t.born <= |trace| && (t.work.Cleanup? ==> JobJustified(c, Events(trace[..t.born]), t.work.job))
  }

  ghost predicate Inv(c: Config, s: State) {
    && |s.done| == |s.threads|
    && (forall k :: 0 <= k < |s.threads| ==> ThreadInv(c, s, k))
    && AllWrote(c, s.threads, s.trace)
  }

  ghost predicate ThreadInv(c: Config, s: State, k: nat)
    requires k < |s.threads| == |s.done|
  {
    && Sound(c, s.threads[k]) && BornJustified(c, s.threads[k], s.trace)
    && s.done[k] == Written(s.trace, k) <= |s.threads[k].log|
  }

  lemma WrittenOn(trace: seq<(nat, Event)>, x: (nat, Event), k: nat)
    ensures Written(trace + [x], k) == Written(trace, k) + if x.0 == k then 1 else 0
  {
    assert (trace + [x])[..|trace|] == trace;
  }

  lemma {:induction false} NotYetWritten(c: Config, threads: seq<Thread>, trace: seq<(nat, Event)>, k: nat)
    requires |threads| <= k && AllWrote(c, threads, trace)
    ensures Written(trace, k) == 0
  {
    if trace != [] { NotYetWritten(c, threads, trace[..|trace| - 1], k); }
  }

  /** A goroutine that is done has written all of its log. */
  lemma {:induction false} AllWritten(c: Config, threads: seq<Thread>, trace: seq<(nat, Event)>, k: nat, q: nat)
    requires k < |threads| && AllWrote(c, threads, trace) && q < Written(trace, k)
    ensures q < |threads[k].log| && threads[k].log[q] in Events(trace)
  {
    var before := trace[..|trace| - 1];
    if q < Written(before, k) { AllWritten(c, threads, before, k, q); }
  }

  lemma JustifiedByMore(c: Config, few: seq<Event>, many: seq<Event>, job: Job)
    requires JobJustified(c, few, job) && forall e :: e in few ==> e in many
    ensures JobJustified(c, many, job)
  {
    var node: Node :| NodeRead(job.pod.nodeName, Some(node)) in few && node.name == job.pod.nodeName && FlagsSay(c, job, node);
    assert NodeRead(job.pod.nodeName, Some(node)) in many;
  }

  lemma SpawnedIsJustified(c: Config, s: State, k: nat, job: Job)
    requires Inv(c, s) && Spawned(c, s, k, job)
    ensures JobJustified(c, Events(s.trace), job)
  {
    assert ThreadInv(c, s, k);
    var t := s.threads[k];
    SpawnIsJustified(c, t.work.handling, t.work.infos, t.work.counts);
    forall e | e in t.log ensures e in Events(s.trace) {
      var q :| 0 <= q < |t.log| && t.log[q] == e;
      AllWritten(c, s.threads, s.trace, k, q);
    }
    JustifiedByMore(c, t.log, Events(s.trace), job);
  }

  // ---------------------------------------------------------------- the invariant

  lemma NewThreadInv(c: Config, s: State, t: Thread, s': State)
    requires Inv(c, s) && Next(c, s, Start(t), s')
    ensures |s'.done| == |s'.threads| == |s.threads| + 1 && ThreadInv(c, s', |s.threads|)
  {
    NotYetWritten(c, s.threads, s.trace, |s.threads|);
    assert s.trace[..|s.trace|] == s.trace;
    if t.work.Cleanup? {
      var k :| 0 <= k < |s.threads| && Spawned(c, s, k, t.work.job);
      SpawnedIsJustified(c, s, k, t.work.job);
    }
  }

  lemma StartKeepsThread(c: Config, s: State, t: Thread, s': State, k: nat)
    requires |s.done| == |s.threads| && k < |s.threads| && ThreadInv(c, s, k) && s' == State(s.threads + [t], s.done + [0], s.trace)
    ensures ThreadInv(c, s', k)
  {
  }

  lemma {:induction false} StartKeepsWrote(c: Config, threads: seq<Thread>, t: Thread, trace: seq<(nat, Event)>)
    requires AllWrote(c, threads, trace)
    ensures AllWrote(c, threads + [t], trace)
  {
    if trace != [] { StartKeepsWrote(c, threads, t, trace[..|trace| - 1]); }
  }

  lemma Started(c: Config, s: State, t: Thread, s': State)
    requires Inv(c, s) && s' == State(s.threads + [t], s.done + [0], s.trace) && ThreadInv(c, s', |s.threads|)
    ensures Inv(c, s')
  {
    forall k | 0 <= k < |s'.threads| ensures ThreadInv(c, s', k) {
      if k < |s.threads| { StartKeepsThread(c, s, t, s', k); }
    }
    StartKeepsWrote(c, s.threads, t, s.trace);
  }

  lemma StartKeepsInv(c: Config, s: State, t: Thread, s': State)
    requires Inv(c, s) && Next(c, s, Start(t), s')
    ensures Inv(c, s')
  {
    NewThreadInv(c, s, t, s');
    Started(c, s, t, s');
  }

  lemma AdvanceKeepsThread(c: Config, s: State, x: (nat, Event), s': State, j: nat)
    requires |s.done| == |s.threads| && j < |s.threads| && ThreadInv(c, s, j) && s'.threads == s.threads && s'.trace == s.trace + [x]
    requires |s'.done| == |s.done| && s'.done[j] == s.done[j] + (if x.0 == j then 1 else 0) <= |s.threads[j].log|
    ensures ThreadInv(c, s', j)
  {
    WrittenOn(s.trace, x, j);
    assert s'.trace[..s.threads[j].born] == s.trace[..s.threads[j].born];
  }

  lemma AdvanceKeepsInv(c: Config, s: State, k: nat, s': State)
    requires Inv(c, s) && Next(c, s, Advance(k), s')
    ensures Inv(c, s')
  {
    assert ThreadInv(c, s, k);
    var x := (k, s.threads[k].log[s.done[k]]);
    forall j | 0 <= j < |s'.threads| ensures ThreadInv(c, s', j) {
      assert ThreadInv(c, s, j);
      AdvanceKeepsThread(c, s, x, s', j);
    }
    assert s'.trace[..|s.trace|] == s.trace;
  }

  lemma {:induction false} RunKeepsInv(c: Config, ss: seq<State>, ts: seq<Step>, i: nat)
    requires Run(c, ss, ts) && i < |ss|
    ensures Inv(c, ss[i])
  {
    if i > 0 {
      RunKeepsInv(c, ss, ts, i - 1);
      assert StepAt(c, ss, ts, i - 1);
      match ts[i - 1] {
        case Start(t) => StartKeepsInv(c, ss[i - 1], t, ss[i]);
        case Advance(k) => AdvanceKeepsInv(c, ss[i - 1], k, ss[i]);
      }
    }
  }

  // ---------------------------------------------------------------- every delete has a cause

  /** Position q of the goroutine's own log is a delete, and this is why; before is what had been written by then. */
  ghost predicate CausedIn(c: Config, before: seq<Event>, t: Thread, q: nat)
    requires q < |t.log|
  {
    var e := t.log[q];
    match t.work
    case Handler(h, _, counts) => MayRestart(c, h, counts) && IsDelete(e) && e.call == DeletePod(h.key, h.pod.value.uid, false)
    case NodeHandler(_) => false
    case Cleanup(job, _, r) =>
      q == |r.Flat()| - 1 && r.delete == [e] && IsDelete(e) && DeleteJustified(job, r.PVs(), r.Flat()) &&
      JobJustified(c, before, job)
    case Polling(rounds) => exists r: nat, i: nat :: SafeAt(c, rounds, q, r, i)
  }

  lemma ThreadCauses(c: Config, before: seq<Event>, t: Thread, q: nat)
    requires Sound(c, t) && q < |t.log| && IsDelete(t.log[q])
    requires t.work.Cleanup? ==> JobJustified(c, before, t.work.job)
    ensures CausedIn(c, before, t, q)
  {
    match t.work {
      case Handler(h, infos, counts) => ControllerRuns.HandlerDeletes(c, h, infos, counts, q);
      case NodeHandler(log) => ControllerRuns.ValidationsDeleteNothing(log, q);
      case Cleanup(job, stale, r) =>
        DeletesAreLast(job, stale, r, q);
        DeleteIsJustified(job, stale, r);
      case Polling(rounds) =>
        var r, i := ForceDeletesAreSafe(c, rounds, q);
        assert SafeAt(c, rounds, q, r, i);
    }
  }

  lemma {:induction false} EventsOfPrefix(trace: seq<(nat, Event)>, n: nat, m: nat, e: Event)
    requires n <= m <= |trace| && e in Events(trace[..n])
    ensures e in Events(trace[..m])
  {
    if n < m {
      EventsOfPrefix(trace, n, m - 1, e);
      assert trace[..m][..m - 1] == trace[..m - 1];
    }
  }

  /** In every interleaving, each position of the trace that holds a delete of a pod was written by a handler that restarts a
      pod in a crash loop, or by the monitor at the end of a safe hand-off of that very position of its own log, in rounds
      that need not be left alone, or at the end of a clean-up that did all a delete rests on, and which a handler had
      started for a pod it had read as not ready on a node it had read with a taint. */
  lemma DeletesHaveACause(c: Config, ss: seq<State>, ts: seq<Step>, n: nat, p: nat)
    requires Run(c, ss, ts) && n < |ss| && p < |ss[n].trace| && IsDelete(ss[n].trace[p].1)
    ensures var s := ss[n]; var k := s.trace[p].0; var q := Written(s.trace[..p], k);
            && Wrote(c, s.threads, s.trace[..p], s.trace[p])
            && CausedIn(c, Events(s.trace[..p]), s.threads[k], q)
  {
    RunKeepsInv(c, ss, ts, n);
    var s := ss[n];
    WroteAt(c, s.threads, s.trace, p);
    var k := s.trace[p].0;
    assert ThreadInv(c, s, k);
    JustifiedByThen(c, s.threads[k], s.trace, p);
    ThreadCauses(c, Events(s.trace[..p]), s.threads[k], Written(s.trace[..p], k));
  }

  lemma JustifiedByThen(c: Config, t: Thread, trace: seq<(nat, Event)>, p: nat)
    requires BornJustified(c, t, trace) && t.born <= p < |trace|
    ensures t.work.Cleanup? ==> JobJustified(c, Events(trace[..p]), t.work.job)
  {
    if t.work.Cleanup? {
      forall e | e in Events(trace[..t.born]) ensures e in Events(trace[..p]) { EventsOfPrefix(trace, t.born, p, e); }
      JustifiedByMore(c, Events(trace[..t.born]), Events(trace[..p]), t.work.job);
    }
  }
}
