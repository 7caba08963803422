/** The run dispatch protocol: any number of worker epochs and start requests
    interleave over one store. Every store call is one atomic step (a unit of
    work is one step as a whole), every call may fail, and every epoch may die
    between any two steps. Worker epochs hold private copies of a run and of its
    thread and write them back under optimistic version checks. */
module Dispatch {
  import opened Base
  import opened Lifecycle
  import opened Claims

  datatype Run = Run(thread: string, key: string, status: RunStatus, version: int)

  datatype Thread = Thread(status: ThreadStatus, version: int)

  /** runLog and threadLog record every status ever stored, oldest first; events
      records the run status events appended to the event log. */
  datatype Store = Store(
    runs: map<string, Run>,
    threads: map<string, Thread>,
    claims: Table,
    keys: map<(string, string), string>,
    clock: int,
    issued: set<string>,
    runLog: map<string, seq<RunStatus>>,
    threadLog: map<string, seq<ThreadStatus>>,
    events: map<string, seq<RunStatus>>)

  /** The run, its thread and their logs exist. */
  ghost predicate Grounded(st: Store, r: string) {
    && r in st.runs && r in st.runLog && r in st.events
    && st.runs[r].thread in st.threads && st.runs[r].thread in st.threadLog
  }

  // ----- store writes

  /** TransitionTo on a private copy, then the version-guarded update; with
      `announce` the status event commits in the same unit. */
  ghost function WriteRun(st: Store, r: string, copy: Run, next: RunStatus, announce: bool)
    : (o: Option<Store>)
    requires Grounded(st, r)
  {
    if CanTransitionRun(copy.status, next) && st.runs[r].version == copy.version then
      Some(st.(runs := st.runs[r := copy.(status := next, version := copy.version + 1)],
               runLog := st.runLog[r := st.runLog[r] + [next]],
               events := if announce then st.events[r := st.events[r] + [next]] else st.events))
    else None
  }

  ghost function WriteThread(st: Store, t: string, copy: Thread, next: ThreadStatus): (o: Option<Store>)
    requires t in st.threads && t in st.threadLog
  {
    if CanTransitionThread(copy.status, next) && st.threads[t].version == copy.version then
      Some(st.(threads := st.threads[t := Thread(next, copy.version + 1)],
               threadLog := st.threadLog[t := st.threadLog[t] + [next]]))
    else None
  }

  /** StartRun's unit: run, claim and thread transition commit together or not at all. */
  ghost function StartUnit(st: Store, r: string, t: string, key: string, copy: Thread): (o: Option<Store>)
  {
    if t !in st.threads || t !in st.threadLog || (t, key) in st.keys || r in st.runs then None
    else
      match TryCreate(st.claims, r, Some(RunPending), st.clock)
      case Err(_) => None
      case Ok(claims) =>
        WriteThread(
          st.(runs := st.runs[r := Run(t, key, RunPending, 1)],
              claims := claims,
              keys := st.keys[(t, key) := r],
              runLog := st.runLog[r := [RunPending]],
              events := st.events[r := []]),
          t, copy, ThreadPlanning)
  }

  // ----- where the thread goes when its run ends

  /** routeFailedThread: after recovery or exhaustion of a started run. */
  function RouteRecovered(s: ThreadStatus): (next: Option<ThreadStatus>) {
    match s
    case ThreadPlanning => Some(ThreadFailed)
    case ThreadExecuting => Some(ThreadFailed)
    case ThreadReviewing => Some(ThreadFailed)
    case ThreadReadyToExecute => Some(ThreadNeedsAttention)
    case _ => None
  }

  /** checkCancelled and convergePendingExhausted. */
  function RouteCancelled(s: ThreadStatus): (next: Option<ThreadStatus>) {
    match s
    case ThreadExecuting => Some(ThreadNeedsAttention)
    case ThreadReadyToExecute => Some(ThreadNeedsAttention)
    case ThreadPlanning => Some(ThreadAwaitingInput)
    case _ => None
  }

  /** failRun. */
  function RouteFailed(s: ThreadStatus): (next: Option<ThreadStatus>) {
    match s
    case ThreadPlanning => Some(ThreadFailed)
    case ThreadExecuting => Some(ThreadFailed)
    case ThreadReviewing => Some(ThreadFailed)
    case _ => None
  }

  /** The end of stageReviewAndReport. */
  function RouteCompleted(s: ThreadStatus, passed: bool): (next: Option<ThreadStatus>) {
    if passed then Some(ThreadReadyForReview)
    else if s == ThreadReviewing then Some(ThreadFailed) else None
  }

  // ----- the pipeline of Execute

  /** Points between two state writes of Execute. */
  datatype Stage =
    | Loaded | Planning | Planned | Started | Executing | Integrating | Verifying | Reporting | Reviewing

  datatype Move =
    | MoveRun(run: RunStatus, next: Stage)
    | MoveThread(thread: ThreadStatus, next: Stage)
    | Finish

  function Forward(at: Stage): (m: Move) {
    match at
    case Loaded => MoveRun(RunPlanning, Planning)
    case Planning => MoveThread(ThreadReadyToExecute, Planned)
    case Planned => MoveThread(ThreadExecuting, Started)
    case Started => MoveRun(RunExecuting, Executing)
    case Executing => MoveRun(RunIntegrating, Integrating)
    case Integrating => MoveRun(RunVerifying, Verifying)
    case Verifying => MoveRun(RunReporting, Reporting)
    case Reporting => MoveThread(ThreadReviewing, Reviewing)
    case Reviewing => Finish
  }

  /** Stages from which failRun is called. */
  predicate CanFail(at: Stage) {
    at == Planning || at == Executing || at == Integrating || at == Verifying || at == Reviewing
  }

  /** Stages from which checkCancelled may finish the run, directly or through failRun. */
  predicate CanCancel(at: Stage) {
    CanFail(at) || at == Planned
  }

  // ----- worker epochs

  /** Program counter of one epoch together with the private copies it holds. */
  datatype Pc =
    | Dispatching
    | Cleaning
    | Converging(exhausted: bool)
    | ConvergeLoaded(run: Run)
    | ConvergeReady(run: Run, thread: Thread)
    | ConvergeRouting(outcome: RunStatus, thread: Thread)
    | ExecuteCalled
    | RunLoaded(run: Run)
    | At(stage: Stage, run: Run, thread: Thread)
    | Emitting(outcome: RunStatus, thread: Thread)
    | Routing(outcome: RunStatus, thread: Thread)
    | Disposing
    | Completing
    | Releasing
    | Done

  datatype Epoch = Epoch(owner: string, token: string, attempts: int, lost: bool, pc: Pc)

  /** What the environment decides in a step: go on, let the call fail, return an
      error, or one of the exits of a stage. */
  datatype Choice = Go | Fault | Return | FailRun | CancelRun | Blocked

  ghost function Credential(k: (string, int), e: Epoch): (ref: Ref) {
    Ref(k.0, e.owner, e.token, k.1)
  }

  /** runClaim: what an epoch does with the run it loaded. */
  function Verdict(status: RunStatus, attempts: int, max: int): (pc: Pc) {
    if Terminal(status) then Cleaning
    else if attempts > max then Converging(true)
    else if status == RunPending then ExecuteCalled
    else Converging(false)
  }

  /** Convergence ends a pending run as cancelled and any other as failed. */
  function Convergence(status: RunStatus): (outcome: RunStatus) {
    if status == RunPending then RunCancelled else RunFailed
  }

  /** Steps that only read the store: where the epoch goes next. */
  ghost function ReadStep(st: Store, r: string, e: Epoch, c: Choice, max: int): (pc: Pc)
    requires Grounded(st, r)
  {
    var run := st.runs[r];
    var thread := st.threads[run.thread];
    match e.pc
    case Dispatching => if c == Fault then Done else Verdict(run.status, e.attempts, max)
    case Converging(exhausted) =>
      if c == Fault || (run.status == RunPending && !exhausted) then Done
      else if Terminal(run.status) then Cleaning
      else ConvergeLoaded(run)
    case ConvergeLoaded(copy) => if c == Fault then Done else ConvergeReady(copy, thread)
    case ExecuteCalled => if c == Fault || run.status != RunPending then Disposing else RunLoaded(run)
    case RunLoaded(copy) => if c == Fault then Disposing else At(Loaded, copy, thread)
    case Disposing =>
      if c == Fault || e.lost then Done
      else if Terminal(run.status) then Completing
      else Releasing
    case _ => Done
  }

  /** Steps that change the claim row: terminal cleanup, completion, release. */
  ghost function ClaimStep(st: Store, k: (string, int), e: Epoch, c: Choice): (res: (Store, Pc))
    requires Grounded(st, k.0)
  {
    var (o, done, failed) :=
      match e.pc
      case Cleaning => (TryCleanup(st.claims, k.0, Some(st.runs[k.0].status)), Done, Done)
      case Completing => (TryComplete(st.claims, Credential(k, e)), Done, Cleaning)
      case _ => (TryRelease(st.claims, Credential(k, e), st.clock), Done, Done);
    if c == Fault || o.Err? then (st, failed) else (st.(claims := o.value), done)
  }

  /** A guarded run write of a private copy; a failed one abandons the copy. */
  ghost function RunStep(st: Store, r: string, copy: Run, next: RunStatus, announce: bool, done: Pc, failed: Pc)
    : (res: (Store, Pc))
    requires Grounded(st, r)
  {
    match WriteRun(st, r, copy, next, announce)
    case None => (st, failed)
    case Some(u) => (u, if done.At? then At(done.stage, u.runs[r], done.thread) else done)
  }

  /** Moving the thread of an ended run; an illegal move is skipped. */
  ghost function RouteStep(st: Store, r: string, copy: Thread, next: Option<ThreadStatus>, done: Pc, failed: Pc)
    : (res: (Store, Pc))
    requires Grounded(st, r)
  {
    if next.None? || !CanTransitionThread(copy.status, next.value) then (st, done) else
      match WriteThread(st, st.runs[r].thread, copy, next.value)
      case None => (st, failed)
      case Some(u) => (u, done)
  }

  ghost function StageStep(st: Store, r: string, at: Stage, run: Run, thread: Thread, c: Choice)
    : (res: (Store, Pc))
    requires Grounded(st, r)
  {
    match c
    case Go =>
      (match Forward(at)
       case MoveRun(status, next) => RunStep(st, r, run, status, true, At(next, run, thread), Disposing)
       case MoveThread(status, next) =>
         (match WriteThread(st, st.runs[r].thread, thread, status)
          case None => (st, Disposing)
          case Some(u) => (u, At(next, run, u.threads[st.runs[r].thread])))
       case Finish => RunStep(st, r, run, RunCompleted, false, Emitting(RunCompleted, thread), Disposing))
    case FailRun =>
      if !CanFail(at) then (st, At(at, run, thread))
      else RunStep(st, r, run, RunFailed, false, Emitting(RunFailed, thread), Disposing)
    case CancelRun =>
      if !CanCancel(at) then (st, At(at, run, thread))
      else RunStep(st, r, run, RunCancelled, false, Emitting(RunCancelled, thread), Disposing)
    case _ => (st, Disposing)
  }

  ghost function Announce(st: Store, r: string, status: RunStatus): (u: Store)
    requires Grounded(st, r)
  {
    st.(events := st.events[r := st.events[r] + [status]])
  }

  /** The event after an unguarded terminal write; only cancellation ignores its failure. */
  ghost function EmitStep(st: Store, r: string, outcome: RunStatus, thread: Thread, c: Choice): (res: (Store, Pc))
    requires Grounded(st, r)
  {
    if c != Fault then (Announce(st, r, outcome), Routing(outcome, thread))
    else if outcome == RunCancelled then (st, Routing(outcome, thread))
    else (st, Disposing)
  }

  /** Where Execute sends the thread after finishing its run as `outcome`. */
  function RouteAfter(outcome: RunStatus, s: ThreadStatus, passed: bool): (next: Option<ThreadStatus>) {
    match outcome
    case RunCompleted => RouteCompleted(s, passed)
    case RunCancelled => RouteCancelled(s)
    case _ => RouteFailed(s)
  }

  function RouteConverged(outcome: RunStatus, s: ThreadStatus): (next: Option<ThreadStatus>) {
    if outcome == RunCancelled then RouteCancelled(s) else RouteRecovered(s)
  }

  /** One step of one epoch. A failed write always leaves the stage for good: the
      copies that were bumped before the failing update are dropped. */
  ghost function EpochStep(st: Store, k: (string, int), e: Epoch, c: Choice, max: int): (res: (Store, Pc))
    requires Grounded(st, k.0)
  {
    var r := k.0;
    match e.pc
    case Cleaning => ClaimStep(st, k, e, c)
    case Completing => ClaimStep(st, k, e, c)
    case Releasing => ClaimStep(st, k, e, c)
    case ConvergeReady(copy, thread) =>
      if c == Fault then (st, Done) else
        RunStep(st, r, copy, Convergence(copy.status), true, ConvergeRouting(Convergence(copy.status), thread), Done)
    case ConvergeRouting(outcome, thread) =>
      if c == Fault then (st, Done)
      else RouteStep(st, r, thread, RouteConverged(outcome, thread.status), Cleaning, Done)
    case At(at, copy, thread) => StageStep(st, r, at, copy, thread, c)
    case Emitting(outcome, thread) => EmitStep(st, r, outcome, thread, c)
    case Routing(outcome, thread) =>
      if c == Fault then (st, Disposing)
      else RouteStep(st, r, thread, RouteAfter(outcome, thread.status, c != Blocked), Disposing, Disposing)
    case _ => (st, ReadStep(st, r, e, c, max))
  }

  // ----- the whole system

  datatype Starter = Starter(thread: string, key: string, copy: Thread)

  /** Epochs are identified by (run, generation); calls logs every call of Execute. */
  datatype State = State(
    st: Store,
    epochs: map<(string, int), Epoch>,
    starters: map<int, Starter>,
    calls: seq<(string, int)>)

  datatype Action =
    | Tick(now: int)
    | CreateThread(t: string)
    | StartRead(id: int, t: string, key: string)
    | StartCommit(id: int, r: string)
    | Acquire(r: string, owner: string, token: string, lease: int)
    | Beat(k: (string, int), extendFor: int, verdict: bool)
    | Step(k: (string, int), choice: Choice)
    | Crash(k: (string, int))

  ghost function Initial(clock: int): (s: State) {
    State(Store(map[], map[], map[], map[], clock, {}, map[], map[], map[]), map[], map[], [])
  }

  /** One action; an action that is not enabled changes nothing. */
  ghost function Next(s: State, a: Action, max: int): (s': State) {
    var st := s.st;
    match a
    case Tick(now) => s.(st := st.(clock := now))
    case CreateThread(t) =>
      if t in st.threads then s else
        s.(st := st.(threads := st.threads[t := Thread(ThreadIdle, 1)],
                     threadLog := st.threadLog[t := [ThreadIdle]]))
    case StartRead(id, t, key) =>
      if t !in st.threads then s
      else s.(starters := s.starters[id := Starter(t, key, st.threads[t])])
    case StartCommit(id, r) =>
      if id !in s.starters then s else
        var w := s.starters[id];
        (match StartUnit(st, r, w.thread, w.key, w.copy)
         case None => s.(starters := s.starters - {id})
         case Some(u) => s.(st := u, starters := s.starters - {id}))
    case Acquire(r, owner, token, lease) =>
      if token in st.issued then s else
        (match TryAcquire(st.claims, r, owner, token, st.clock, lease)
         case Err(_) => s
         case Ok(claims) =>
           s.(st := st.(claims := claims, issued := st.issued + {token}),
              epochs := s.epochs[(r, claims[r].generation) :=
                                 Epoch(owner, token, claims[r].attempts, false, Dispatching)]))
    case Beat(k, extendFor, verdict) =>
      if k !in s.epochs then s else
        (match TryHeartbeat(st.claims, Credential(k, s.epochs[k]), st.clock, extendFor)
         case Ok(claims) => s.(st := st.(claims := claims))
         case Err(_) => s.(epochs := s.epochs[k := s.epochs[k].(lost := s.epochs[k].lost || verdict)]))
    case Step(k, c) =>
      if k !in s.epochs || !Grounded(st, k.0) then s else
        var e := s.epochs[k];
        var (u, pc) := EpochStep(st, k, e, c, max);
        s.(st := u,
           epochs := s.epochs[k := e.(pc := pc)],
           calls := if e.pc == Dispatching && pc == ExecuteCalled then s.calls + [k] else s.calls)
    case Crash(k) =>
      if k !in s.epochs then s else s.(epochs := s.epochs[k := s.epochs[k].(pc := Done)])
  }

  /** The state after a sequence of actions. */
  ghost function Reach(s: State, acts: seq<Action>, max: int): (s': State)
    decreases |acts|
  {
    if acts == [] then s else Reach(Next(s, acts[0], max), acts[1..], max)
  }
}
