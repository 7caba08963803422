/** A concrete run in which a delayed worker converges a run that another one is executing, and the
    uncommitted outcome is seen. */
module DispatchOverlap {
  import opened Base
  import opened Lifecycle
  import opened Claims
  import opened Dispatch
  import opened DispatchResults
  import opened DispatchRollback
  import opened DispatchLosses
  import opened DispatchWitnesses

  /** The first worker acquired the run and was delayed until its lease ran out. */
  ghost function Delayed(n: Names, clock: int): (st: Store) {
    Claimed(n, clock).(clock := clock + n.lease)
  }

  /** The second worker has acquired the run, still pending. */
  ghost function Reacquired(n: Names, clock: int): (st: Store) {
    Delayed(n, clock).(claims := map[n.run := AcquireClaim(Delayed(n, clock).claims[n.run], n.owner, n.heir,
                                                           clock + n.lease, n.lease)],
                       issued := {n.token, n.heir})
  }

  /** The second worker has moved the run to planning. */
  ghost function Replanned(n: Names, clock: int): (st: Store) {
    Reacquired(n, clock).(runs := map[n.run := RunIn(n, RunPlanning, 2)],
                          runLog := map[n.run := [RunPending, RunPlanning]], events := map[n.run := [RunPlanning]])
  }

  ghost function Pair(n: Names, st: Store, first: Pc, second: Pc, calls: seq<(string, int)>): (s: State) {
    State(st, map[(n.run, 1) := Epoch(n.owner, n.token, 1, false, first),
                  (n.run, 2) := Epoch(n.owner, n.heir, 2, false, second)], map[], calls)
  }

  lemma FirstMoves(n: Names, st: Store, pc: Pc, to: Pc, second: Pc, calls: seq<(string, int)>, max: int)
    requires Grounded(st, n.run) && to != ExecuteCalled
    requires EpochStep(st, (n.run, 1), Epoch(n.owner, n.token, 1, false, pc), Go, max) == (st, to)
    ensures Next(Pair(n, st, pc, second, calls), Step((n.run, 1), Go), max) == Pair(n, st, to, second, calls)
  {
    hide EpochStep;
    assert Pair(n, st, pc, second, calls).epochs[(n.run, 1) := Epoch(n.owner, n.token, 1, false, to)] ==
           Pair(n, st, to, second, calls).epochs;
  }

  lemma SecondMoves(n: Names, st: Store, first: Pc, pc: Pc, u: Store, to: Pc, calls: seq<(string, int)>, c: Choice,
                    max: int)
    requires Grounded(st, n.run)
    requires EpochStep(st, (n.run, 2), Epoch(n.owner, n.heir, 2, false, pc), c, max) == (u, to)
    ensures Next(Pair(n, st, first, pc, calls), Step((n.run, 2), c), max) ==
            Pair(n, u, first, to, if pc == Dispatching && to == ExecuteCalled then calls + [(n.run, 2)] else calls)
  {
    hide EpochStep;
    assert Pair(n, st, first, pc, calls).epochs[(n.run, 2) := Epoch(n.owner, n.heir, 2, false, to)] ==
           Pair(n, u, first, to, calls).epochs;
  }

  lemma DelayedClaim(n: Names, clock: int)
    requires Usable(n)
    ensures TryAcquire(Delayed(n, clock).claims, n.run, n.owner, n.heir, clock + n.lease, n.lease) ==
            Ok(Reacquired(n, clock).claims)
  {
    hide ValidOwner;
    Replaced(n.run, Delayed(n, clock).claims[n.run], Reacquired(n, clock).claims[n.run]);
  }

  lemma ReacquireSteps(n: Names, clock: int, max: int)
    requires Usable(n)
    ensures Next(One(n, Claimed(n, clock), Dispatching, []), Tick(clock + n.lease), max) ==
            One(n, Delayed(n, clock), Dispatching, [])
    ensures Next(One(n, Delayed(n, clock), Dispatching, []), Acquire(n.run, n.owner, n.heir, n.lease), max) ==
            Pair(n, Reacquired(n, clock), Dispatching, Dispatching, [])
  {
    hide EpochStep, StartUnit, ValidOwner, TryAcquire;
    DelayedClaim(n, clock);
    assert {n.token} + {n.heir} == {n.token, n.heir};
  }

  /** The second worker loads the pending run and its thread. */
  lemma SecondLoads(n: Names, clock: int, max: int)
    requires max >= 2
    ensures Next(Pair(n, Reacquired(n, clock), Dispatching, Dispatching, []), Step((n.run, 2), Go), max) ==
            Pair(n, Reacquired(n, clock), Dispatching, ExecuteCalled, [(n.run, 2)])
    ensures Next(Pair(n, Reacquired(n, clock), Dispatching, ExecuteCalled, [(n.run, 2)]), Step((n.run, 2), Go), max) ==
            Pair(n, Reacquired(n, clock), Dispatching, RunLoaded(RunIn(n, RunPending, 1)), [(n.run, 2)])
    ensures Next(Pair(n, Reacquired(n, clock), Dispatching, RunLoaded(RunIn(n, RunPending, 1)), [(n.run, 2)]),
                 Step((n.run, 2), Go), max) ==
            Pair(n, Reacquired(n, clock), Dispatching,
                 At(Loaded, RunIn(n, RunPending, 1), Thread(ThreadPlanning, 2)), [(n.run, 2)])
  {
    hide Next, Pair, ClaimStep, RunStep, RouteStep, StageStep, EmitStep;
    var st, r := Reacquired(n, clock), RunIn(n, RunPending, 1);
    assert [] + [(n.run, 2)] == [(n.run, 2)];
    SecondMoves(n, st, Dispatching, Dispatching, st, ExecuteCalled, [], Go, max);
    SecondMoves(n, st, Dispatching, ExecuteCalled, st, RunLoaded(r), [(n.run, 2)], Go, max);
    SecondMoves(n, st, Dispatching, RunLoaded(r), st, At(Loaded, r, Thread(ThreadPlanning, 2)), [(n.run, 2)], Go, max);
  }

  lemma SecondWrite(n: Names, clock: int)
    ensures WriteRun(Reacquired(n, clock), n.run, RunIn(n, RunPending, 1), RunPlanning, true) ==
            Some(Replanned(n, clock))
  {
    assert RunEdges(RunPending)[0] == RunPlanning;
    assert [RunPending] + [RunPlanning] == [RunPending, RunPlanning] && [] + [RunPlanning] == [RunPlanning];
    Replaced(n.run, RunIn(n, RunPending, 1), RunIn(n, RunPlanning, 2));
    Replaced(n.run, [RunPending], [RunPending, RunPlanning]);
    Replaced(n.run, [], [RunPlanning]);
  }

  /** It moves the run to planning, then its next call fails and Execute returns. */
  lemma SecondPlans(n: Names, clock: int, max: int)
    ensures Next(Pair(n, Reacquired(n, clock), Dispatching,
                      At(Loaded, RunIn(n, RunPending, 1), Thread(ThreadPlanning, 2)), [(n.run, 2)]),
                 Step((n.run, 2), Go), max) ==
            Pair(n, Replanned(n, clock), Dispatching,
                 At(Planning, RunIn(n, RunPlanning, 2), Thread(ThreadPlanning, 2)), [(n.run, 2)])
    ensures Next(Pair(n, Replanned(n, clock), Dispatching,
                      At(Planning, RunIn(n, RunPlanning, 2), Thread(ThreadPlanning, 2)), [(n.run, 2)]),
                 Step((n.run, 2), Fault), max) ==
            Pair(n, Replanned(n, clock), Dispatching, Disposing, [(n.run, 2)])
  {
    hide Next, Pair, WriteRun, ClaimStep, RouteStep, EmitStep, ReadStep;
    SecondWrite(n, clock);
    var t, calls := Thread(ThreadPlanning, 2), [(n.run, 2)];
    SecondMoves(n, Reacquired(n, clock), Dispatching, At(Loaded, RunIn(n, RunPending, 1), t),
                Replanned(n, clock), At(Planning, RunIn(n, RunPlanning, 2), t), calls, Go, max);
    SecondMoves(n, Replanned(n, clock), Dispatching, At(Planning, RunIn(n, RunPlanning, 2), t),
                Replanned(n, clock), Disposing, calls, Fault, max);
  }

  /** The first worker goes on, takes the run for interrupted and is about to converge it. */
  lemma FirstConverges(n: Names, clock: int, max: int)
    requires max >= 2
    ensures Next(Pair(n, Replanned(n, clock), Dispatching, Disposing, [(n.run, 2)]), Step((n.run, 1), Go), max) ==
            Pair(n, Replanned(n, clock), Converging(false), Disposing, [(n.run, 2)])
    ensures Next(Pair(n, Replanned(n, clock), Converging(false), Disposing, [(n.run, 2)]), Step((n.run, 1), Go), max) ==
            Pair(n, Replanned(n, clock), ConvergeLoaded(RunIn(n, RunPlanning, 2)), Disposing, [(n.run, 2)])
    ensures Next(Pair(n, Replanned(n, clock), ConvergeLoaded(RunIn(n, RunPlanning, 2)), Disposing, [(n.run, 2)]),
                 Step((n.run, 1), Go), max) ==
            Pair(n, Replanned(n, clock), ConvergeReady(RunIn(n, RunPlanning, 2), Thread(ThreadPlanning, 2)), Disposing,
                 [(n.run, 2)])
  {
    hide Next, Pair, ClaimStep, RunStep, RouteStep, StageStep, EmitStep;
    var st, r, calls := Replanned(n, clock), RunIn(n, RunPlanning, 2), [(n.run, 2)];
    FirstMoves(n, st, Dispatching, Converging(false), Disposing, calls, max);
    FirstMoves(n, st, Converging(false), ConvergeLoaded(r), Disposing, calls, max);
    FirstMoves(n, st, ConvergeLoaded(r), ConvergeReady(r, Thread(ThreadPlanning, 2)), Disposing, calls, max);
  }

  ghost function Overlapping(n: Names, clock: int): (s: State) {
    Pair(n, Replanned(n, clock), ConvergeReady(RunIn(n, RunPlanning, 2), Thread(ThreadPlanning, 2)), Disposing,
         [(n.run, 2)])
  }

  lemma OverlapIsReached(n: Names, clock: int, max: int) returns (acts: seq<Action>)
    requires Usable(n) && max >= 2
    ensures Leads(Initial(clock), acts, max, Overlapping(n, clock))
  {
    hide Next, Leads, One, Pair, Claimed, Delayed, Reacquired, Replanned;
    var i, w, k, calls := Initial(clock), (n.run, 1), (n.run, 2), [(n.run, 2)];
    var t, p, r := Thread(ThreadPlanning, 2), RunIn(n, RunPending, 1), RunIn(n, RunPlanning, 2);
    var before, after := Reacquired(n, clock), Replanned(n, clock);
    acts := ClaimIsReached(n, clock, max);
    ReacquireSteps(n, clock, max);
    Then(i, acts, max, One(n, Claimed(n, clock), Dispatching, []), Tick(clock + n.lease));
    acts := acts + [Tick(clock + n.lease)];
    Then(i, acts, max, One(n, Delayed(n, clock), Dispatching, []), Acquire(n.run, n.owner, n.heir, n.lease));
    acts := acts + [Acquire(n.run, n.owner, n.heir, n.lease)];
    SecondLoads(n, clock, max);
    Then(i, acts, max, Pair(n, before, Dispatching, Dispatching, []), Step(k, Go));
    acts := acts + [Step(k, Go)];
    Then(i, acts, max, Pair(n, before, Dispatching, ExecuteCalled, calls), Step(k, Go));
    acts := acts + [Step(k, Go)];
    Then(i, acts, max, Pair(n, before, Dispatching, RunLoaded(p), calls), Step(k, Go));
    acts := acts + [Step(k, Go)];
    SecondPlans(n, clock, max);
    Then(i, acts, max, Pair(n, before, Dispatching, At(Loaded, p, t), calls), Step(k, Go));
    acts := acts + [Step(k, Go)];
    Then(i, acts, max, Pair(n, after, Dispatching, At(Planning, r, t), calls), Step(k, Fault));
    acts := acts + [Step(k, Fault)];
    FirstConverges(n, clock, max);
    Then(i, acts, max, Pair(n, after, Dispatching, Disposing, calls), Step(w, Go));
    acts := acts + [Step(w, Go)];
    Then(i, acts, max, Pair(n, after, Converging(false), Disposing, calls), Step(w, Go));
    acts := acts + [Step(w, Go)];
    Then(i, acts, max, Pair(n, after, ConvergeLoaded(r), Disposing, calls), Step(w, Go));
    acts := acts + [Step(w, Go)];
  }

  /** The second loss is reached: some sequence of actions leads to a state in which a delayed worker
      converges the run inside its unit, the holder of the claim sees the outcome, and the rollback of
      that unit loses the run. */
  lemma AnUncommittedOutcomeIsReached(n: Names, clock: int, max: int) returns (before: seq<Action>)
    requires Usable(n) && max >= 2
    ensures var s, w, k := Reached(clock, before, max), (n.run, 1), (n.run, 2);
            && Interrupted(s, Some(Step(w, Go)), [Step(k, Go)], max)
            && Lost(PlayAll(Crowd(Rolled(s, Some(Step(w, Go)), [Step(k, Go)], max), []), [Turn(Step(k, Go))],
                            max).now.st, n.run)
  {
    before := OverlapIsReached(n, clock, max);
    assert Overlap(Reached(clock, before, max), (n.run, 1), (n.run, 2)) by {
      hide Next, ValidOwner;
    }
    hide Next, Leads, Interrupted, Lost, PlayAll, Rolled, Overlap;
    UncommittedConvergenceLosesTheRun(clock, before, max, (n.run, 1), (n.run, 2));
  }
}
