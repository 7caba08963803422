/** Concrete runs of the dispatch protocol that reach the states its guarantees turn on. */
module DispatchWitnesses {
  import opened Base
  import opened Lifecycle
  import opened Claims
  import opened Dispatch
  import opened DispatchInvariant
  import opened DispatchTheorems
  import opened DispatchResults
  import opened DispatchRollback
  import opened DispatchLosses

  /** A thread, a run started on it and two workers' credentials. */
  datatype Names = Names(thread: string, key: string, run: string, owner: string, token: string, heir: string,
                         lease: int)

  predicate Usable(n: Names) {
    ValidOwner(n.owner) && |n.token| == TOKEN_LENGTH && |n.heir| == TOKEN_LENGTH && n.token != n.heir && n.lease > 0
  }

  // ----- one action after the other

  lemma {:induction false} ReachSnoc(s: State, acts: seq<Action>, a: Action, max: int)
    ensures Reach(s, acts + [a], max) == Next(Reach(s, acts, max), a, max)
    decreases |acts|
  {
    hide Next;
    if acts == [] {
      assert acts + [a] == [a];
    } else {
      assert (acts + [a])[1..] == acts[1..] + [a];
      ReachSnoc(Next(s, acts[0], max), acts[1..], a, max);
    }
  }

  ghost predicate Leads(from: State, acts: seq<Action>, max: int, s: State) {
    Reach(from, acts, max) == s
  }

  lemma Then(from: State, acts: seq<Action>, max: int, s: State, a: Action)
    requires Leads(from, acts, max, s)
    ensures Leads(from, acts + [a], max, Next(s, a, max))
  {
    hide Next;
    ReachSnoc(from, acts, a, max);
  }

  lemma Begins(s: State, max: int)
    ensures Leads(s, [], max, s)
  {
  }

  // ----- a run is started, acquired and planned

  ghost function StartedStore(n: Names, clock: int): (st: Store) {
    Store(map[n.run := Run(n.thread, n.key, RunPending, 1)], map[n.thread := Thread(ThreadPlanning, 2)],
          map[n.run := NewClaim(clock)], map[(n.thread, n.key) := n.run], clock, {},
          map[n.run := [RunPending]], map[n.thread := [ThreadIdle, ThreadPlanning]], map[n.run := []])
  }

  ghost function Claimed(n: Names, clock: int): (st: Store) {
    StartedStore(n, clock).(claims := map[n.run := AcquireClaim(NewClaim(clock), n.owner, n.token, clock, n.lease)],
                       issued := {n.token})
  }

  ghost function RunIn(n: Names, status: RunStatus, version: int): (r: Run) {
    Run(n.thread, n.key, status, version)
  }

  ghost function PlannedStore(n: Names, clock: int): (st: Store) {
    Claimed(n, clock).(runs := map[n.run := RunIn(n, RunPlanning, 2)],
                       runLog := map[n.run := [RunPending, RunPlanning]], events := map[n.run := [RunPlanning]])
  }

  /** The state with one epoch of the first worker. */
  ghost function One(n: Names, st: Store, pc: Pc, calls: seq<(string, int)>): (s: State) {
    State(st, map[(n.run, 1) := Epoch(n.owner, n.token, 1, false, pc)], map[], calls)
  }

  ghost function Opened(n: Names, clock: int): (st: Store) {
    Initial(clock).st.(threads := map[n.thread := Thread(ThreadIdle, 1)], threadLog := map[n.thread := [ThreadIdle]])
  }

  lemma OpenSteps(n: Names, clock: int, max: int)
    ensures Next(Initial(clock), CreateThread(n.thread), max) == State(Opened(n, clock), map[], map[], [])
    ensures Next(State(Opened(n, clock), map[], map[], []), StartRead(0, n.thread, n.key), max) ==
            State(Opened(n, clock), map[], map[0 := Starter(n.thread, n.key, Thread(ThreadIdle, 1))], [])
  {
    hide EpochStep, StartUnit;
  }

  lemma StartStep(n: Names, clock: int, max: int)
    ensures Next(State(Opened(n, clock), map[], map[0 := Starter(n.thread, n.key, Thread(ThreadIdle, 1))], []),
                 StartCommit(0, n.run), max) == State(StartedStore(n, clock), map[], map[], [])
  {
    hide EpochStep;
    PlanningEntry(ThreadIdle);
    assert [ThreadIdle] + [ThreadPlanning] == [ThreadIdle, ThreadPlanning];
    var u, v := StartUnit(Opened(n, clock), n.run, n.thread, n.key, Thread(ThreadIdle, 1)).value,
        StartedStore(n, clock);
    assert u.runs == v.runs && u.threads == v.threads && u.claims == v.claims && u.keys == v.keys;
    assert u.runLog == v.runLog && u.threadLog == v.threadLog && u.events == v.events;
  }

  lemma AcquireStep(n: Names, clock: int, max: int)
    requires Usable(n)
    ensures Next(State(StartedStore(n, clock), map[], map[], []), Acquire(n.run, n.owner, n.token, n.lease), max) ==
            One(n, Claimed(n, clock), Dispatching, [])
  {
    hide EpochStep, StartUnit, ValidOwner;
  }

  lemma Replaced<K, V>(k: K, v: V, w: V)
    ensures map[k := v][k := w] == map[k := w]
  {
  }

  /** A step of the only epoch is its epoch step. */
  lemma Moves(n: Names, st: Store, pc: Pc, u: Store, to: Pc, calls: seq<(string, int)>, c: Choice, max: int)
    requires Grounded(st, n.run)
    requires EpochStep(st, (n.run, 1), Epoch(n.owner, n.token, 1, false, pc), c, max) == (u, to)
    ensures Next(One(n, st, pc, calls), Step((n.run, 1), c), max) ==
            One(n, u, to, if pc == Dispatching && to == ExecuteCalled then calls + [(n.run, 1)] else calls)
  {
    hide EpochStep;
    Replaced((n.run, 1), Epoch(n.owner, n.token, 1, false, pc), Epoch(n.owner, n.token, 1, false, to));
  }

  lemma LoadSteps(n: Names, clock: int, max: int)
    requires max >= 1
    ensures Next(One(n, Claimed(n, clock), Dispatching, []), Step((n.run, 1), Go), max) ==
            One(n, Claimed(n, clock), ExecuteCalled, [(n.run, 1)])
    ensures Next(One(n, Claimed(n, clock), ExecuteCalled, [(n.run, 1)]), Step((n.run, 1), Go), max) ==
            One(n, Claimed(n, clock), RunLoaded(RunIn(n, RunPending, 1)), [(n.run, 1)])
    ensures Next(One(n, Claimed(n, clock), RunLoaded(RunIn(n, RunPending, 1)), [(n.run, 1)]),
                 Step((n.run, 1), Go), max) ==
            One(n, Claimed(n, clock), At(Loaded, RunIn(n, RunPending, 1), Thread(ThreadPlanning, 2)), [(n.run, 1)])
  {
    hide Next, One, ClaimStep, RunStep, RouteStep, StageStep, EmitStep;
    var st, r := Claimed(n, clock), RunIn(n, RunPending, 1);
    assert [] + [(n.run, 1)] == [(n.run, 1)];
    Moves(n, st, Dispatching, st, ExecuteCalled, [], Go, max);
    Moves(n, st, ExecuteCalled, st, RunLoaded(r), [(n.run, 1)], Go, max);
    Moves(n, st, RunLoaded(r), st, At(Loaded, r, Thread(ThreadPlanning, 2)), [(n.run, 1)], Go, max);
  }

  lemma PlanWrite(n: Names, clock: int)
    ensures WriteRun(Claimed(n, clock), n.run, RunIn(n, RunPending, 1), RunPlanning, true) ==
            Some(PlannedStore(n, clock))
  {
    assert RunEdges(RunPending)[0] == RunPlanning;
    assert [RunPending] + [RunPlanning] == [RunPending, RunPlanning] && [] + [RunPlanning] == [RunPlanning];
    Replaced(n.run, RunIn(n, RunPending, 1), RunIn(n, RunPlanning, 2));
    Replaced(n.run, [RunPending], [RunPending, RunPlanning]);
    Replaced(n.run, [], [RunPlanning]);
  }

  lemma PlanStep(n: Names, clock: int, max: int)
    ensures Next(One(n, Claimed(n, clock), At(Loaded, RunIn(n, RunPending, 1), Thread(ThreadPlanning, 2)),
                     [(n.run, 1)]),
                 Step((n.run, 1), Go), max) ==
            One(n, PlannedStore(n, clock), At(Planning, RunIn(n, RunPlanning, 2), Thread(ThreadPlanning, 2)),
                [(n.run, 1)])
  {
    hide Next, One, WriteRun, ClaimStep, RouteStep, EmitStep, ReadStep;
    PlanWrite(n, clock);
    Moves(n, Claimed(n, clock), At(Loaded, RunIn(n, RunPending, 1), Thread(ThreadPlanning, 2)),
          PlannedStore(n, clock), At(Planning, RunIn(n, RunPlanning, 2), Thread(ThreadPlanning, 2)), [(n.run, 1)],
          Go, max);
  }

  /** A run is started on a new thread and acquired. */
  lemma ClaimIsReached(n: Names, clock: int, max: int) returns (acts: seq<Action>)
    requires Usable(n)
    ensures Leads(Initial(clock), acts, max, One(n, Claimed(n, clock), Dispatching, []))
  {
    hide Next, Leads, One, Claimed, StartedStore, Opened;
    acts := [];
    Begins(Initial(clock), max);
    OpenSteps(n, clock, max);
    Then(Initial(clock), acts, max, Initial(clock), CreateThread(n.thread));
    acts := acts + [CreateThread(n.thread)];
    Then(Initial(clock), acts, max, State(Opened(n, clock), map[], map[], []), StartRead(0, n.thread, n.key));
    acts := acts + [StartRead(0, n.thread, n.key)];
    StartStep(n, clock, max);
    Then(Initial(clock), acts, max,
         State(Opened(n, clock), map[], map[0 := Starter(n.thread, n.key, Thread(ThreadIdle, 1))], []),
         StartCommit(0, n.run));
    acts := acts + [StartCommit(0, n.run)];
    AcquireStep(n, clock, max);
    Then(Initial(clock), acts, max, State(StartedStore(n, clock), map[], map[], []),
         Acquire(n.run, n.owner, n.token, n.lease));
    acts := acts + [Acquire(n.run, n.owner, n.token, n.lease)];
  }

  /** Eight actions bring a fresh epoch to the planning stage of its run. */
  lemma PlanningIsReached(n: Names, clock: int, max: int) returns (acts: seq<Action>)
    requires Usable(n) && max >= 1
    ensures Leads(Initial(clock), acts, max,
                  One(n, PlannedStore(n, clock), At(Planning, RunIn(n, RunPlanning, 2), Thread(ThreadPlanning, 2)),
                      [(n.run, 1)]))
  {
    hide Next, Leads, One, PlannedStore, Claimed;
    var k := (n.run, 1);
    acts := ClaimIsReached(n, clock, max);
    LoadSteps(n, clock, max);
    Then(Initial(clock), acts, max, One(n, Claimed(n, clock), Dispatching, []), Step(k, Go));
    acts := acts + [Step(k, Go)];
    Then(Initial(clock), acts, max, One(n, Claimed(n, clock), ExecuteCalled, [k]), Step(k, Go));
    acts := acts + [Step(k, Go)];
    Then(Initial(clock), acts, max, One(n, Claimed(n, clock), RunLoaded(RunIn(n, RunPending, 1)), [k]), Step(k, Go));
    acts := acts + [Step(k, Go)];
    PlanStep(n, clock, max);
    Then(Initial(clock), acts, max,
         One(n, Claimed(n, clock), At(Loaded, RunIn(n, RunPending, 1), Thread(ThreadPlanning, 2)), [k]), Step(k, Go));
    acts := acts + [Step(k, Go)];
  }

  /** The first loss is reached: some sequence of actions leads to a state in which a unit begins, the
      epoch fails its run meanwhile, and the rollback of the unit loses the run. */
  lemma ALostRunIsReached(n: Names, clock: int, max: int) returns (before: seq<Action>)
    requires Usable(n) && max >= 1
    ensures var s, k := Reached(clock, before, max), (n.run, 1);
            && Interrupted(s, None, FailsAndReloads(k), max)
            && Lost(PlayAll(Crowd(Rolled(s, None, FailsAndReloads(k), max), []), [Turn(Step(k, Go))], max).now.st,
                    n.run)
  {
    before := PlanningIsReached(n, clock, max);
    assert CanStillFail(Reached(clock, before, max), (n.run, 1)) by {
      hide Next, ValidOwner;
    }
    hide Next, Leads, Interrupted, Lost, PlayAll, Rolled, CanStillFail;
    RollbackOverAFailureLosesTheRun(clock, before, max, (n.run, 1));
  }

  // ----- a second worker finds the run interrupted

  ghost function InThread(st: Store, n: Names, status: ThreadStatus, version: int, log: seq<ThreadStatus>): (u: Store) {
    st.(threads := map[n.thread := Thread(status, version)], threadLog := map[n.thread := log])
  }

  ghost function Ready(n: Names, clock: int): (st: Store) {
    InThread(PlannedStore(n, clock), n, ThreadReadyToExecute, 3, [ThreadIdle, ThreadPlanning, ThreadReadyToExecute])
  }

  ghost function Busy(n: Names, clock: int): (st: Store) {
    InThread(PlannedStore(n, clock), n, ThreadExecuting, 4,
             [ThreadIdle, ThreadPlanning, ThreadReadyToExecute, ThreadExecuting])
  }

  /** Writing the only thread replaces it and extends its log. */
  lemma ThreadWrite(st: Store, n: Names, from: ThreadStatus, version: int, log: seq<ThreadStatus>, next: ThreadStatus)
    requires CanTransitionThread(from, next)
    ensures WriteThread(InThread(st, n, from, version, log), n.thread, Thread(from, version), next) ==
            Some(InThread(st, n, next, version + 1, log + [next]))
  {
    hide CanTransitionThread;
    Replaced(n.thread, Thread(from, version), Thread(next, version + 1));
    Replaced(n.thread, log, log + [next]);
  }

  lemma ThreadWrites(n: Names, clock: int)
    ensures WriteThread(PlannedStore(n, clock), n.thread, Thread(ThreadPlanning, 2), ThreadReadyToExecute) ==
            Some(Ready(n, clock))
    ensures WriteThread(Ready(n, clock), n.thread, Thread(ThreadReadyToExecute, 3), ThreadExecuting) ==
            Some(Busy(n, clock))
  {
    hide WriteThread;
    assert CanTransitionThread(ThreadPlanning, ThreadReadyToExecute) by {
      assert ThreadEdges(ThreadPlanning)[1] == ThreadReadyToExecute;
    }
    assert CanTransitionThread(ThreadReadyToExecute, ThreadExecuting) by {
      assert ThreadEdges(ThreadReadyToExecute)[0] == ThreadExecuting;
    }
    var st, log := PlannedStore(n, clock), [ThreadIdle, ThreadPlanning, ThreadReadyToExecute];
    assert [ThreadIdle, ThreadPlanning] + [ThreadReadyToExecute] == log;
    assert log + [ThreadExecuting] == [ThreadIdle, ThreadPlanning, ThreadReadyToExecute, ThreadExecuting];
    ThreadWrite(st, n, ThreadPlanning, 2, [ThreadIdle, ThreadPlanning], ThreadReadyToExecute);
    ThreadWrite(st, n, ThreadReadyToExecute, 3, log, ThreadExecuting);
    assert st == InThread(st, n, ThreadPlanning, 2, [ThreadIdle, ThreadPlanning]);
  }

  lemma ThreadSteps(n: Names, clock: int, max: int)
    ensures Next(One(n, PlannedStore(n, clock), At(Planning, RunIn(n, RunPlanning, 2), Thread(ThreadPlanning, 2)),
                     [(n.run, 1)]),
                 Step((n.run, 1), Go), max) ==
            One(n, Ready(n, clock), At(Planned, RunIn(n, RunPlanning, 2), Thread(ThreadReadyToExecute, 3)),
                [(n.run, 1)])
    ensures Next(One(n, Ready(n, clock), At(Planned, RunIn(n, RunPlanning, 2), Thread(ThreadReadyToExecute, 3)),
                     [(n.run, 1)]),
                 Step((n.run, 1), Go), max) ==
            One(n, Busy(n, clock), At(Started, RunIn(n, RunPlanning, 2), Thread(ThreadExecuting, 4)), [(n.run, 1)])
  {
    hide Next, One, WriteThread, ClaimStep, RouteStep, EmitStep, ReadStep;
    ThreadWrites(n, clock);
    var r := RunIn(n, RunPlanning, 2);
    Moves(n, PlannedStore(n, clock), At(Planning, r, Thread(ThreadPlanning, 2)),
          Ready(n, clock), At(Planned, r, Thread(ThreadReadyToExecute, 3)), [(n.run, 1)], Go, max);
    Moves(n, Ready(n, clock), At(Planned, r, Thread(ThreadReadyToExecute, 3)),
          Busy(n, clock), At(Started, r, Thread(ThreadExecuting, 4)), [(n.run, 1)], Go, max);
  }

  /** The first worker's lease has run out. */
  ghost function Late(n: Names, clock: int): (st: Store) {
    Busy(n, clock).(clock := clock + n.lease)
  }

  /** A second worker has acquired the run. */
  ghost function Taken(n: Names, clock: int): (st: Store) {
    Late(n, clock).(claims := map[n.run := AcquireClaim(Late(n, clock).claims[n.run], n.owner, n.heir,
                                                        clock + n.lease, n.lease)],
                    issued := {n.token, n.heir})
  }

  /** The run as the second worker leaves it. */
  ghost function GivenUp(n: Names, clock: int): (st: Store) {
    Taken(n, clock).(runs := map[n.run := RunIn(n, RunFailed, 3)],
                     runLog := map[n.run := [RunPending, RunPlanning, RunFailed]],
                     events := map[n.run := [RunPlanning, RunFailed]])
  }

  ghost function Stuck(n: Names): (pc: Pc) {
    At(Started, RunIn(n, RunPlanning, 2), Thread(ThreadExecuting, 4))
  }

  /** The state with an epoch of each worker. */
  ghost function Two(n: Names, own: Pc, st: Store, pc: Pc): (s: State) {
    State(st, map[(n.run, 1) := Epoch(n.owner, n.token, 1, false, own),
                  (n.run, 2) := Epoch(n.owner, n.heir, 2, false, pc)], map[], [(n.run, 1)])
  }

  lemma LeaseRunsOut(n: Names, clock: int)
    requires Usable(n)
    ensures TryAcquire(Late(n, clock).claims, n.run, n.owner, n.heir, clock + n.lease, n.lease) ==
            Ok(Taken(n, clock).claims)
  {
    hide ValidOwner;
    Replaced(n.run, Late(n, clock).claims[n.run], Taken(n, clock).claims[n.run]);
  }

  lemma TakeOver(n: Names, own: Pc, clock: int, max: int)
    requires Usable(n)
    ensures Next(One(n, Busy(n, clock), own, [(n.run, 1)]), Tick(clock + n.lease), max) ==
            One(n, Late(n, clock), own, [(n.run, 1)])
    ensures Next(One(n, Late(n, clock), own, [(n.run, 1)]), Acquire(n.run, n.owner, n.heir, n.lease), max) ==
            Two(n, own, Taken(n, clock), Dispatching)
  {
    hide EpochStep, StartUnit, ValidOwner, TryAcquire;
    LeaseRunsOut(n, clock);
    assert {n.token} + {n.heir} == {n.token, n.heir};
  }

  /** A step of the second epoch is its epoch step. */
  lemma HeirMoves(n: Names, own: Pc, st: Store, pc: Pc, u: Store, to: Pc, max: int)
    requires Grounded(st, n.run) && to != ExecuteCalled
    requires EpochStep(st, (n.run, 2), Epoch(n.owner, n.heir, 2, false, pc), Go, max) == (u, to)
    ensures Next(Two(n, own, st, pc), Step((n.run, 2), Go), max) == Two(n, own, u, to)
  {
    hide EpochStep;
    assert Two(n, own, st, pc).epochs[(n.run, 2) := Epoch(n.owner, n.heir, 2, false, to)] == Two(n, own, u, to).epochs;
  }

  lemma FailWrite(n: Names, clock: int)
    ensures WriteRun(Taken(n, clock), n.run, RunIn(n, RunPlanning, 2), RunFailed, true) == Some(GivenUp(n, clock))
  {
    assert RunEdges(RunPlanning)[1] == RunFailed;
    assert [RunPending, RunPlanning] + [RunFailed] == [RunPending, RunPlanning, RunFailed];
    assert [RunPlanning] + [RunFailed] == [RunPlanning, RunFailed];
    Replaced(n.run, RunIn(n, RunPlanning, 2), RunIn(n, RunFailed, 3));
    Replaced(n.run, [RunPending, RunPlanning], [RunPending, RunPlanning, RunFailed]);
    Replaced(n.run, [RunPlanning], [RunPlanning, RunFailed]);
  }

  lemma ConvergeSteps(n: Names, own: Pc, clock: int, max: int)
    ensures Next(Two(n, own, Taken(n, clock), Dispatching), Step((n.run, 2), Go), max) ==
            Two(n, own, Taken(n, clock), Converging(2 > max))
    ensures Next(Two(n, own, Taken(n, clock), Converging(2 > max)), Step((n.run, 2), Go), max) ==
            Two(n, own, Taken(n, clock), ConvergeLoaded(RunIn(n, RunPlanning, 2)))
    ensures Next(Two(n, own, Taken(n, clock), ConvergeLoaded(RunIn(n, RunPlanning, 2))), Step((n.run, 2), Go), max) ==
            Two(n, own, Taken(n, clock), ConvergeReady(RunIn(n, RunPlanning, 2), Thread(ThreadExecuting, 4)))
  {
    hide Next, Two, ClaimStep, RunStep, RouteStep, StageStep, EmitStep;
    var st, r, t := Taken(n, clock), RunIn(n, RunPlanning, 2), Thread(ThreadExecuting, 4);
    HeirMoves(n, own, st, Dispatching, st, Converging(2 > max), max);
    HeirMoves(n, own, st, Converging(2 > max), st, ConvergeLoaded(r), max);
    HeirMoves(n, own, st, ConvergeLoaded(r), st, ConvergeReady(r, t), max);
  }

  lemma FailStep(n: Names, own: Pc, clock: int, max: int)
    ensures Next(Two(n, own, Taken(n, clock), ConvergeReady(RunIn(n, RunPlanning, 2), Thread(ThreadExecuting, 4))),
                 Step((n.run, 2), Go), max) ==
            Two(n, own, GivenUp(n, clock), ConvergeRouting(RunFailed, Thread(ThreadExecuting, 4)))
  {
    hide Next, Two, WriteRun, ClaimStep, RouteStep, StageStep, EmitStep, ReadStep;
    var r, t := RunIn(n, RunPlanning, 2), Thread(ThreadExecuting, 4);
    FailWrite(n, clock);
    HeirMoves(n, own, Taken(n, clock), ConvergeReady(r, t), GivenUp(n, clock), ConvergeRouting(RunFailed, t), max);
  }

  /** From any state where the first worker stands at `own`, the run planning: its lease runs out and
      the second worker fails the run. */
  lemma HeirTakesOver(from: State, acts: seq<Action>, n: Names, own: Pc, clock: int, max: int) returns (bs: seq<Action>)
    requires Usable(n) && max >= 1 && Leads(from, acts, max, One(n, Busy(n, clock), own, [(n.run, 1)]))
    ensures Leads(from, bs, max, Two(n, own, GivenUp(n, clock), ConvergeRouting(RunFailed, Thread(ThreadExecuting, 4))))
  {
    hide Next, Leads, One, Two, Busy, Late, Taken, GivenUp;
    var r, k, j := RunIn(n, RunPlanning, 2), (n.run, 1), (n.run, 2);
    bs := acts;
    TakeOver(n, own, clock, max);
    Then(from, bs, max, One(n, Busy(n, clock), own, [k]), Tick(clock + n.lease));
    bs := bs + [Tick(clock + n.lease)];
    Then(from, bs, max, One(n, Late(n, clock), own, [k]), Acquire(n.run, n.owner, n.heir, n.lease));
    bs := bs + [Acquire(n.run, n.owner, n.heir, n.lease)];
    ConvergeSteps(n, own, clock, max);
    FailStep(n, own, clock, max);
    Then(from, bs, max, Two(n, own, Taken(n, clock), Dispatching), Step(j, Go));
    bs := bs + [Step(j, Go)];
    Then(from, bs, max, Two(n, own, Taken(n, clock), Converging(2 > max)), Step(j, Go));
    bs := bs + [Step(j, Go)];
    Then(from, bs, max, Two(n, own, Taken(n, clock), ConvergeLoaded(r)), Step(j, Go));
    bs := bs + [Step(j, Go)];
    Then(from, bs, max, Two(n, own, Taken(n, clock), ConvergeReady(r, Thread(ThreadExecuting, 4))), Step(j, Go));
    bs := bs + [Step(j, Go)];
  }

  /** The first worker has moved its thread and is about to write executing. */
  lemma StuckIsReached(n: Names, clock: int, max: int) returns (acts: seq<Action>)
    requires Usable(n) && max >= 1
    ensures Leads(Initial(clock), acts, max, One(n, Busy(n, clock), Stuck(n), [(n.run, 1)]))
  {
    hide Next, Leads, One, PlannedStore, Ready, Busy;
    var r, k := RunIn(n, RunPlanning, 2), (n.run, 1);
    acts := PlanningIsReached(n, clock, max);
    ThreadSteps(n, clock, max);
    Then(Initial(clock), acts, max, One(n, PlannedStore(n, clock), At(Planning, r, Thread(ThreadPlanning, 2)), [k]),
         Step(k, Go));
    acts := acts + [Step(k, Go)];
    Then(Initial(clock), acts, max, One(n, Ready(n, clock), At(Planned, r, Thread(ThreadReadyToExecute, 3)), [k]),
         Step(k, Go));
    acts := acts + [Step(k, Go)];
  }

  /** The second worker has failed the run while the first still holds its copy. */
  lemma TakeOverIsReached(n: Names, clock: int, max: int) returns (acts: seq<Action>)
    requires Usable(n) && max >= 1
    ensures Leads(Initial(clock), acts, max,
                  Two(n, Stuck(n), GivenUp(n, clock), ConvergeRouting(RunFailed, Thread(ThreadExecuting, 4))))
  {
    hide Next, Leads, One, Two, Busy, GivenUp;
    acts := StuckIsReached(n, clock, max);
    acts := HeirTakesOver(Initial(clock), acts, n, Stuck(n), clock, max);
  }

  /** Such a state is reached: the run is failed, a live epoch holds its last copy and is about to
      write executing; the store refuses that write, but would accept the bumped copy's next one
      and overwrite the failure. */
  lemma ABumpedCopyOverwrites(n: Names, clock: int, max: int) returns (acts: seq<Action>)
    requires Usable(n) && max >= 1
    ensures var s := Reached(clock, acts, max);
            && (n.run, 1) in s.epochs && s.epochs[(n.run, 1)].pc == Stuck(n)
            && Forward(Started) == MoveRun(RunExecuting, Executing)
            && Grounded(s.st, n.run) && RunCopy(s.st, n.run, Stuck(n).run) && s.st.runs[n.run].status == RunFailed
            && WriteRun(s.st, n.run, Stuck(n).run, RunExecuting, true).None?
            && var bumped := Stuck(n).run.(status := RunExecuting, version := Stuck(n).run.version + 1);
               var o := WriteRun(s.st, n.run, bumped, RunIntegrating, true);
               o.Some? && o.value.runs[n.run].status == RunIntegrating
  {
    acts := TakeOverIsReached(n, clock, max);
    hide Next, Inv;
    assert RunEdges(RunPlanning)[0] == RunExecuting && RunEdges(RunExecuting)[0] == RunIntegrating;
  }
}
