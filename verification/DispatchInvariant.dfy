/** What every step of the dispatch protocol keeps. */
module DispatchInvariant {
  import opened Lifecycle
  import opened Claims
  import opened Dispatch

  // ----- invariants of the store

  /** The event stream is the status history after the initial pending, except
      that the terminal event alone may be missing. */
  ghost predicate EventsOk(log: seq<RunStatus>, ev: seq<RunStatus>) {
    && log != []
    && (ev == log[1..] || Unannounced(log, ev))
  }

  ghost predicate Unannounced(log: seq<RunStatus>, ev: seq<RunStatus>) {
    && |log| >= 2 && Terminal(log[|log| - 1]) && ev == log[1..|log| - 1]
  }

  ghost predicate RunOk(st: Store, r: string)
    requires r in st.runs
  {
    && Grounded(st, r)
    && RunPath(st.runLog[r])
    && |st.runLog[r]| == st.runs[r].version
    && st.runLog[r][|st.runLog[r]| - 1] == st.runs[r].status
    && EventsOk(st.runLog[r], st.events[r])
    && (st.runs[r].thread, st.runs[r].key) in st.keys
    && st.keys[(st.runs[r].thread, st.runs[r].key)] == r
    && (r !in st.claims ==> Terminal(st.runs[r].status))
  }

  ghost predicate ThreadOk(st: Store, t: string)
    requires t in st.threads
  {
    && t in st.threadLog
    && ThreadPath(st.threadLog[t])
    && |st.threadLog[t]| == st.threads[t].version
    && st.threadLog[t][|st.threadLog[t]| - 1] == st.threads[t].status
  }

  ghost predicate Active(st: Store, t: string, r: string) {
    r in st.runs && st.runs[r].thread == t && !Terminal(st.runs[r].status)
  }

  /** The thread statuses a run in flight passes through. */
  predicate Working(s: ThreadStatus) {
    s == ThreadPlanning || s == ThreadReadyToExecute || s == ThreadExecuting || s == ThreadReviewing
  }

  ghost predicate ActiveOk(st: Store, r: string)
    requires r in st.runs && st.runs[r].thread in st.threads
  {
    var t := st.runs[r].thread;
    !Terminal(st.runs[r].status) ==>
      && Working(st.threads[t].status)
      && (st.runs[r].status == RunPending ==> st.threads[t].status == ThreadPlanning)
      && forall q :: Active(st, t, q) ==> q == r
  }

  ghost predicate StoreOk(st: Store) {
    && (forall r :: r in st.runs ==> RunOk(st, r) && ActiveOk(st, r))
    && (forall t :: t in st.threads ==> ThreadOk(st, t))
    && (forall r :: r in st.claims ==> r in st.runs && st.claims[r].generation == st.claims[r].attempts >= 0)
  }

  // ----- invariants of private copies

  /** A copy is some past or present version of the stored run. */
  ghost predicate RunCopy(st: Store, r: string, copy: Run)
    requires Grounded(st, r)
  {
    && copy.thread == st.runs[r].thread && copy.key == st.runs[r].key
    && 1 <= copy.version <= st.runs[r].version && copy.version <= |st.runLog[r]|
    && copy.status == st.runLog[r][copy.version - 1]
  }

  ghost predicate ThreadCopy(st: Store, t: string, copy: Thread)
    requires t in st.threads && t in st.threadLog
  {
    && 1 <= copy.version <= st.threads[t].version && copy.version <= |st.threadLog[t]|
    && copy.status == st.threadLog[t][copy.version - 1]
  }

  /** While the thread is still at the copied version, only r can be active on it. */
  ghost predicate Owns(st: Store, r: string, copy: Thread)
    requires Grounded(st, r)
  {
    var t := st.runs[r].thread;
    && ThreadCopy(st, t, copy)
    && (copy.version == st.threads[t].version ==> forall q :: Active(st, t, q) ==> q == r)
  }

  function StageRun(at: Stage): (s: RunStatus) {
    match at
    case Loaded => RunPending
    case Planning => RunPlanning
    case Planned => RunPlanning
    case Started => RunPlanning
    case Executing => RunExecuting
    case Integrating => RunIntegrating
    case Verifying => RunVerifying
    case Reporting => RunReporting
    case Reviewing => RunReporting
  }

  function StageThread(at: Stage): (s: ThreadStatus) {
    match at
    case Loaded => ThreadPlanning
    case Planning => ThreadPlanning
    case Planned => ThreadReadyToExecute
    case Reviewing => ThreadReviewing
    case _ => ThreadExecuting
  }

  /** What an epoch may rely on at each point. Before its first run write the
      thread copy is trusted only if the run has not moved since it was read. */
  ghost predicate PcOk(st: Store, r: string, pc: Pc)
    requires Grounded(st, r)
  {
    var t := st.runs[r].thread;
    match pc
    case ConvergeLoaded(copy) => RunCopy(st, r, copy) && !Terminal(copy.status)
    case ConvergeReady(copy, thread) =>
      && RunCopy(st, r, copy) && !Terminal(copy.status) && ThreadCopy(st, t, thread)
      && (copy.version == st.runs[r].version ==> Owns(st, r, thread))
    case ConvergeRouting(outcome, thread) => st.runs[r].status == outcome && Terminal(outcome) && Owns(st, r, thread)
    case RunLoaded(copy) => RunCopy(st, r, copy) && copy.status == RunPending
    case At(at, copy, thread) =>
      && RunCopy(st, r, copy) && copy.status == StageRun(at) && ThreadCopy(st, t, thread)
      && (at == Loaded ==>
            (copy.version == st.runs[r].version ==> Owns(st, r, thread) && thread.status == ThreadPlanning))
      && (at != Loaded ==> Owns(st, r, thread) && thread.status == StageThread(at) && copy.version >= 2)
    case Emitting(outcome, thread) => st.runs[r].status == outcome && Terminal(outcome) && Owns(st, r, thread)
    case Routing(outcome, thread) => st.runs[r].status == outcome && Terminal(outcome) && Owns(st, r, thread)
    case Completing => Terminal(st.runs[r].status)
    case _ => true
  }

  ghost predicate EpochOk(st: Store, k: (string, int), e: Epoch) {
    && Grounded(st, k.0) && PcOk(st, k.0, e.pc)
    && e.attempts == k.1 >= 1
    && (k.0 in st.claims ==> k.1 <= st.claims[k.0].generation)
  }

  // ----- what a store step may do to everybody else

  /** st can become u behind the back of any epoch without invalidating it. */
  ghost predicate Evolves(st: Store, u: Store) {
    && (forall r :: r in st.runs && Grounded(st, r) ==> RunEvolves(st, u, r))
    && (forall t :: t in st.threads && t in st.threadLog ==> ThreadEvolves(st, u, t))
    && (forall r :: r in st.runs && r in u.claims ==>
        r in st.claims && st.claims[r].generation <= u.claims[r].generation)
  }

  ghost predicate RunEvolves(st: Store, u: Store, r: string)
    requires Grounded(st, r)
  {
    && Grounded(u, r)
    && u.runs[r].thread == st.runs[r].thread && u.runs[r].key == st.runs[r].key
    && st.runs[r].version <= u.runs[r].version
    && st.runLog[r] <= u.runLog[r]
    && (u.runs[r].version == st.runs[r].version ==> u.runs[r].status == st.runs[r].status)
    && (Terminal(st.runs[r].status) ==> u.runs[r].status == st.runs[r].status)
  }

  /** No run becomes active on a thread unless the thread's version moves. */
  ghost predicate ThreadEvolves(st: Store, u: Store, t: string)
    requires t in st.threads && t in st.threadLog
  {
    && t in u.threads && t in u.threadLog
    && st.threads[t].version <= u.threads[t].version
    && st.threadLog[t] <= u.threadLog[t]
    && (u.threads[t].version == st.threads[t].version ==>
          u.threads[t].status == st.threads[t].status && forall q :: Active(u, t, q) ==> Active(st, t, q))
  }

  lemma EvolutionKeepsEpoch(st: Store, u: Store, k: (string, int), e: Epoch)
    requires StoreOk(st) && Evolves(st, u) && EpochOk(st, k, e)
    ensures EpochOk(u, k, e)
  {
    hide StoreOk, RunOk, ThreadOk;
    assert RunEvolves(st, u, k.0);
    assert ThreadEvolves(st, u, st.runs[k.0].thread);
  }

  lemma EvolutionKeepsThreadCopy(st: Store, u: Store, t: string, copy: Thread)
    requires Evolves(st, u) && t in st.threads && t in st.threadLog && ThreadCopy(st, t, copy)
    ensures t in u.threads && t in u.threadLog && ThreadCopy(u, t, copy)
  {
    assert ThreadEvolves(st, u, t);
  }

  /** Finished runs keep their log and their events. */
  ghost predicate Quiet(st: Store, u: Store) {
    forall r :: r in st.runs && Grounded(st, r) && Terminal(st.runs[r].status) ==>
      r in u.runLog && r in u.events && u.runLog[r] == st.runLog[r] && u.events[r] == st.events[r]
  }

  // ----- store writes keep the store invariant

  lemma AppendRunPath(h: seq<RunStatus>, next: RunStatus)
    requires RunPath(h) && CanTransitionRun(h[|h| - 1], next)
    ensures RunPath(h + [next])
  {
  }

  lemma AppendThreadPath(h: seq<ThreadStatus>, next: ThreadStatus)
    requires ThreadPath(h) && CanTransitionThread(h[|h| - 1], next)
    ensures ThreadPath(h + [next])
  {
  }

  /** A copy that passes the version check equals the stored run. */
  lemma FreshCopy(st: Store, r: string, copy: Run)
    requires r in st.runs && RunOk(st, r) && RunCopy(st, r, copy) && copy.version == st.runs[r].version
    ensures copy == st.runs[r]
  {
  }

  lemma WriteRunKeepsRun(st: Store, r: string, copy: Run, next: RunStatus, announce: bool)
    requires r in st.runs && RunOk(st, r) && RunCopy(st, r, copy)
    requires WriteRun(st, r, copy, next, announce).Some? && (announce || Terminal(next))
    ensures RunOk(WriteRun(st, r, copy, next, announce).value, r)
    ensures !Terminal(st.runs[r].status) && next != RunPending
    ensures !announce ==> var u := WriteRun(st, r, copy, next, announce).value;
                          Unannounced(u.runLog[r], u.events[r])
  {
    FreshCopy(st, r, copy);
    EdgeIncreasesRank(copy.status, next);
    AppendRunPath(st.runLog[r], next);
    var log := st.runLog[r] + [next];
    assert log[1..] == st.runLog[r][1..] + [next];
    assert log[1..|log| - 1] == st.runLog[r][1..];
  }

  /** An untouched run of a changed store is still consistent. */
  lemma UntouchedRun(st: Store, u: Store, q: string)
    requires q in st.runs && RunOk(st, q) && q in u.runs && u.runs[q] == st.runs[q]
    requires q in u.runLog && u.runLog[q] == st.runLog[q] && q in u.events && u.events[q] == st.events[q]
    requires st.runs[q].thread in u.threads && st.runs[q].thread in u.threadLog
    requires forall k :: k in st.keys ==> k in u.keys && u.keys[k] == st.keys[k]
    requires q in st.claims ==> q in u.claims
    ensures RunOk(u, q)
  {
  }

  /** No run is active on t that was not active before. */
  ghost predicate NoNewActive(st: Store, u: Store, t: string) {
    forall q :: Active(u, t, q) ==> Active(st, t, q)
  }

  lemma ActiveStays(st: Store, u: Store, q: string)
    requires q in st.runs && st.runs[q].thread in st.threads && ActiveOk(st, q)
    requires q in u.runs && u.runs[q].thread == st.runs[q].thread && u.runs[q].thread in u.threads
    requires NoNewActive(st, u, st.runs[q].thread)
    requires u.threads[u.runs[q].thread].status == st.threads[u.runs[q].thread].status
    requires Terminal(st.runs[q].status) ==> Terminal(u.runs[q].status)
    requires u.runs[q].status == RunPending ==> st.runs[q].status == RunPending
    ensures ActiveOk(u, q)
  {
  }

  lemma WriteRunKeeps(st: Store, r: string, copy: Run, next: RunStatus, announce: bool)
    requires StoreOk(st) && r in st.runs && RunCopy(st, r, copy)
    requires WriteRun(st, r, copy, next, announce).Some? && (announce || Terminal(next))
    ensures StoreOk(WriteRun(st, r, copy, next, announce).value)
    ensures Evolves(st, WriteRun(st, r, copy, next, announce).value)
    ensures Quiet(st, WriteRun(st, r, copy, next, announce).value)
  {
    assert RunOk(st, r);
    WriteRunIsRunWritten(st, r, copy, next, announce);
    RunWrittenKeeps(st, WriteRun(st, r, copy, next, announce).value, r);
  }

  lemma WriteRunIsRunWritten(st: Store, r: string, copy: Run, next: RunStatus, announce: bool)
    requires r in st.runs && RunOk(st, r) && RunCopy(st, r, copy)
    requires WriteRun(st, r, copy, next, announce).Some? && (announce || Terminal(next))
    ensures RunWritten(st, WriteRun(st, r, copy, next, announce).value, r)
  {
    hide RunPath, EventsOk;
    WriteRunKeepsRun(st, r, copy, next, announce);
    FreshCopy(st, r, copy);
  }

  lemma RunWrittenKeeps(st: Store, u: Store, r: string)
    requires StoreOk(st) && RunWritten(st, u, r)
    ensures StoreOk(u) && Evolves(st, u) && Quiet(st, u)
  {
    hide ActiveOk, ThreadOk, Evolves, Quiet;
    forall q | q in u.runs ensures RunOk(u, q) && ActiveOk(u, q) {
      WriteRunKeepsOther(st, u, r, q);
    }
    WriteRunFrame(st, u, r);
  }

  /** u is st with run r moved on, and nothing else changed. */
  ghost predicate RunWritten(st: Store, u: Store, r: string) {
    && r in st.runs && RunOk(st, r) && r in u.runs && RunOk(u, r)
    && !Terminal(st.runs[r].status) && st.runs[r].version < u.runs[r].version
    && u.runs[r].status != RunPending
    && u.runs[r].thread == st.runs[r].thread && u.runs[r].key == st.runs[r].key
    && st.runLog[r] <= u.runLog[r]
    && u == st.(runs := st.runs[r := u.runs[r]], runLog := st.runLog[r := u.runLog[r]],
                events := st.events[r := u.events[r]])
  }

  lemma RunWrittenActive(st: Store, u: Store, r: string, t: string)
    requires RunWritten(st, u, r)
    ensures NoNewActive(st, u, t)
  {
  }

  lemma WriteRunKeepsOther(st: Store, u: Store, r: string, q: string)
    requires RunWritten(st, u, r) && q in st.runs && RunOk(st, q) && ActiveOk(st, q)
    ensures q in u.runs && RunOk(u, q) && ActiveOk(u, q)
  {
    if q != r {
      UntouchedRun(st, u, q);
    }
    RunWrittenActive(st, u, r, st.runs[q].thread);
    ActiveStays(st, u, q);
  }

  /** A run write is invisible to the other runs, to the threads and to the claims. */
  lemma WriteRunFrame(st: Store, u: Store, r: string)
    requires RunWritten(st, u, r) && forall t :: t in st.threads ==> ThreadOk(st, t)
    ensures Evolves(st, u) && Quiet(st, u)
    ensures forall t :: t in u.threads ==> ThreadOk(u, t)
  {
    forall t | t in st.threads && t in st.threadLog ensures ThreadEvolves(st, u, t) {
      RunWrittenActive(st, u, r, t);
    }
    forall t | t in u.threads ensures ThreadOk(u, t) {
      assert ThreadOk(st, t);
    }
  }

  /** u is st with thread t moved on, and nothing else changed. */
  ghost predicate ThreadWritten(st: Store, u: Store, t: string) {
    && t in st.threads && ThreadOk(st, t) && t in u.threads && ThreadOk(u, t)
    && st.threads[t].version < u.threads[t].version && st.threadLog[t] <= u.threadLog[t]
    && u == st.(threads := st.threads[t := u.threads[t]], threadLog := st.threadLog[t := u.threadLog[t]])
  }

  lemma WriteThreadKeepsRun(st: Store, u: Store, t: string, q: string)
    requires ThreadWritten(st, u, t) && q in st.runs && RunOk(st, q) && ActiveOk(st, q)
    requires Active(st, t, q) ==> Working(u.threads[t].status) && st.runs[q].status != RunPending
    ensures q in u.runs && RunOk(u, q) && ActiveOk(u, q)
  {
    UntouchedRun(st, u, q);
    assert NoNewActive(st, u, st.runs[q].thread);
  }

  lemma WriteThreadFrame(st: Store, u: Store, t: string)
    requires ThreadWritten(st, u, t) && forall t' :: t' in st.threads ==> ThreadOk(st, t')
    ensures Evolves(st, u) && Quiet(st, u)
    ensures forall t' :: t' in u.threads ==> ThreadOk(u, t')
  {
    forall t' | t' in st.threads && t' in st.threadLog ensures ThreadEvolves(st, u, t') {
      assert NoNewActive(st, u, t');
    }
    forall t' | t' in u.threads ensures ThreadOk(u, t') {
      assert ThreadOk(st, t');
    }
  }

  lemma WriteThreadKeeps(st: Store, t: string, copy: Thread, next: ThreadStatus)
    requires StoreOk(st) && t in st.threads && t in st.threadLog && ThreadCopy(st, t, copy)
    requires WriteThread(st, t, copy, next).Some?
    requires forall q :: Active(st, t, q) ==> Working(next) && st.runs[q].status != RunPending
    ensures StoreOk(WriteThread(st, t, copy, next).value)
    ensures Evolves(st, WriteThread(st, t, copy, next).value)
    ensures Quiet(st, WriteThread(st, t, copy, next).value)
  {
    var u := WriteThread(st, t, copy, next).value;
    assert ThreadOk(st, t);
    AppendThreadPath(st.threadLog[t], next);
    assert ThreadWritten(st, u, t);
    forall q | q in u.runs ensures RunOk(u, q) && ActiveOk(u, q) {
      WriteThreadKeepsRun(st, u, t, q);
    }
    WriteThreadFrame(st, u, t);
  }

  /** A thread that can enter planning has no active run. */
  lemma StartableThreadIsFree(st: Store, t: string, q: string)
    requires StoreOk(st) && t in st.threads && CanTransitionThread(st.threads[t].status, ThreadPlanning)
    ensures !Active(st, t, q)
  {
    PlanningEntry(st.threads[t].status);
    if q in st.runs {
      assert RunOk(st, q) && ActiveOk(st, q);
    }
  }

  /** u is st with run r started on thread t: a free thread moves to planning. */
  ghost predicate RunStarted(st: Store, u: Store, r: string, t: string) {
    && t in st.threads && ThreadOk(st, t) && t in u.threads && ThreadOk(u, t)
    && st.threads[t].version < u.threads[t].version && st.threadLog[t] <= u.threadLog[t]
    && r !in st.runs && r in u.runs && RunOk(u, r)
    && u.runs[r].thread == t && u.runs[r].status == RunPending
    && u.threads[t].status == ThreadPlanning
    && r in u.claims && u.claims[r].generation == u.claims[r].attempts == 0 && r !in st.claims
    && (t, u.runs[r].key) !in st.keys
    && (forall q :: !Active(st, t, q))
    && u == st.(runs := st.runs[r := u.runs[r]], runLog := st.runLog[r := u.runLog[r]],
                events := st.events[r := u.events[r]], claims := st.claims[r := u.claims[r]],
                keys := st.keys[(t, u.runs[r].key) := r],
                threads := st.threads[t := u.threads[t]], threadLog := st.threadLog[t := u.threadLog[t]])
  }

  lemma StartedActive(st: Store, u: Store, r: string, t: string, t': string)
    requires RunStarted(st, u, r, t)
    ensures t' != t ==> NoNewActive(st, u, t')
    ensures forall q :: Active(u, t, q) ==> q == r
  {
    forall q | Active(u, t, q) ensures q == r {
      assert !Active(st, t, q);
    }
  }

  lemma StartKeepsOther(st: Store, u: Store, r: string, t: string, q: string)
    requires RunStarted(st, u, r, t) && q in st.runs && RunOk(st, q) && ActiveOk(st, q)
    ensures q in u.runs && RunOk(u, q) && ActiveOk(u, q)
  {
    UntouchedRun(st, u, q);
    StartedActive(st, u, r, t, st.runs[q].thread);
    assert !Active(st, t, q);
    if st.runs[q].thread != t {
      ActiveStays(st, u, q);
    }
  }

  lemma StartFrame(st: Store, u: Store, r: string, t: string)
    requires RunStarted(st, u, r, t)
    ensures Evolves(st, u)
  {
    forall q | q in st.runs && Grounded(st, q) ensures RunEvolves(st, u, q) {
      assert q != r;
    }
    forall t' | t' in st.threads && t' in st.threadLog ensures ThreadEvolves(st, u, t') {
      StartedActive(st, u, r, t, t');
    }
  }

  lemma StartQuiet(st: Store, u: Store, r: string, t: string)
    requires RunStarted(st, u, r, t) && forall t' :: t' in st.threads ==> ThreadOk(st, t')
    ensures Quiet(st, u)
    ensures forall t' :: t' in u.threads ==> ThreadOk(u, t')
  {
    forall t' | t' in u.threads ensures ThreadOk(u, t') {
      assert ThreadOk(st, t');
    }
  }

  lemma StartIsRunStarted(st: Store, r: string, t: string, key: string, copy: Thread)
    requires StoreOk(st) && t in st.threads && t in st.threadLog && ThreadCopy(st, t, copy)
    requires StartUnit(st, r, t, key, copy).Some?
    ensures RunStarted(st, StartUnit(st, r, t, key, copy).value, r, t)
  {
    var u := StartUnit(st, r, t, key, copy).value;
    assert ThreadOk(st, t);
    assert copy == st.threads[t];
    AppendThreadPath(st.threadLog[t], ThreadPlanning);
    forall q ensures !Active(st, t, q) {
      StartableThreadIsFree(st, t, q);
    }
  }

  lemma StartKeeps(st: Store, r: string, t: string, key: string, copy: Thread)
    requires StoreOk(st) && t in st.threads && t in st.threadLog && ThreadCopy(st, t, copy)
    requires StartUnit(st, r, t, key, copy).Some?
    ensures StoreOk(StartUnit(st, r, t, key, copy).value)
    ensures Evolves(st, StartUnit(st, r, t, key, copy).value)
    ensures Quiet(st, StartUnit(st, r, t, key, copy).value)
  {
    var u := StartUnit(st, r, t, key, copy).value;
    StartIsRunStarted(st, r, t, key, copy);
    StartedKeeps(st, u, r, t);
  }

  lemma StartedKeeps(st: Store, u: Store, r: string, t: string)
    requires StoreOk(st) && RunStarted(st, u, r, t)
    ensures StoreOk(u) && Evolves(st, u) && Quiet(st, u)
  {
    hide Evolves, Quiet, RunOk, ActiveOk, ThreadOk, RunStarted;
    StartedRuns(st, u, r, t);
    StartedParts(st, u, r, t);
    StartFrame(st, u, r, t);
    StartQuiet(st, u, r, t);
  }

  lemma StartedRuns(st: Store, u: Store, r: string, t: string)
    requires StoreOk(st) && RunStarted(st, u, r, t)
    ensures forall q :: q in u.runs ==> RunOk(u, q) && ActiveOk(u, q)
  {
    hide ActiveOk, ThreadOk, Active, EventsOk, RunPath, ThreadPath;
    forall q | q in u.runs ensures RunOk(u, q) && ActiveOk(u, q) {
      if q != r {
        StartKeepsOther(st, u, r, t, q);
      } else {
        StartedIsActive(st, u, r, t);
      }
    }
  }

  lemma StartedParts(st: Store, u: Store, r: string, t: string)
    requires StoreOk(st) && RunStarted(st, u, r, t)
    ensures forall q :: q in u.runs ==> q == r || q in st.runs
    ensures forall q :: q in u.claims ==> q in u.runs && u.claims[q].generation == u.claims[q].attempts >= 0
  {
  }

  lemma StartedIsActive(st: Store, u: Store, r: string, t: string)
    requires RunStarted(st, u, r, t)
    ensures RunOk(u, r) && ActiveOk(u, r)
  {
    StartedActive(st, u, r, t, t);
  }

  /** Changing claims is harmless if no claim of an unfinished run disappears, none
      appears, and generations do not fall. */
  lemma ClaimsKeep(st: Store, claims: Table, issued: set<string>)
    requires StoreOk(st)
    requires forall r :: r in claims ==>
               && r in st.claims && st.claims[r].generation <= claims[r].generation
               && claims[r].generation == claims[r].attempts
    requires forall r :: r in st.claims && r !in claims ==> r in st.runs && Terminal(st.runs[r].status)
    ensures StoreOk(st.(claims := claims, issued := issued))
    ensures Evolves(st, st.(claims := claims, issued := issued))
    ensures Quiet(st, st.(claims := claims, issued := issued))
  {
    var u := st.(claims := claims, issued := issued);
    SameRunsKeep(st, u);
  }

  /** Steps that leave runs, threads and their logs alone. */
  lemma SameRunsKeep(st: Store, u: Store)
    requires StoreOk(st)
    requires u.runs == st.runs && u.threads == st.threads && u.keys == st.keys
    requires u.runLog == st.runLog && u.threadLog == st.threadLog && u.events == st.events
    requires forall r :: r in u.claims ==>
               && r in st.claims && st.claims[r].generation <= u.claims[r].generation
               && u.claims[r].generation == u.claims[r].attempts
    requires forall r :: r in st.claims && r !in u.claims ==> r in st.runs && Terminal(st.runs[r].status)
    ensures StoreOk(u) && Evolves(st, u) && Quiet(st, u)
  {
    forall q | q in u.runs ensures RunOk(u, q) && ActiveOk(u, q) {
      assert RunOk(st, q) && ActiveOk(st, q);
      forall q' | Active(u, u.runs[q].thread, q') ensures Active(st, u.runs[q].thread, q') {
      }
    }
    forall t | t in u.threads ensures ThreadOk(u, t) {
      assert ThreadOk(st, t);
    }
    forall t | t in st.threads && t in st.threadLog ensures ThreadEvolves(st, u, t) {
      forall q | Active(u, t, q) ensures Active(st, t, q) {
      }
    }
  }

  lemma AnnounceKeeps(st: Store, r: string)
    requires StoreOk(st) && r in st.runs && Grounded(st, r)
    requires Unannounced(st.runLog[r], st.events[r])
    ensures StoreOk(Announce(st, r, st.runs[r].status))
    ensures Evolves(st, Announce(st, r, st.runs[r].status))
  {
    var u := Announce(st, r, st.runs[r].status);
    var log := st.runLog[r];
    assert RunOk(st, r);
    assert log[1..|log| - 1] + [log[|log| - 1]] == log[1..];
    forall q | q in u.runs ensures RunOk(u, q) && ActiveOk(u, q) {
      assert RunOk(st, q) && ActiveOk(st, q);
      forall q' | Active(u, u.runs[q].thread, q') ensures Active(st, u.runs[q].thread, q') {
      }
    }
    forall t | t in u.threads ensures ThreadOk(u, t) {
      assert ThreadOk(st, t);
    }
    forall t | t in st.threads && t in st.threadLog ensures ThreadEvolves(st, u, t) {
      forall q | Active(u, t, q) ensures Active(st, t, q) {
      }
    }
  }
}
