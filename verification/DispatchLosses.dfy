/** When a rollback does no harm, and the two ways in which it loses a run. */
module DispatchLosses {
  import opened Base
  import opened Lifecycle
  import opened Claims
  import opened Dispatch
  import opened DispatchInvariant
  import opened DispatchSafety
  import opened DispatchTheorems
  import opened DispatchResults
  import opened DispatchRollback

  // ----- harmless rollbacks

  /** Whoever is about to complete a claim saw the run finished. */
  lemma CompletingSawFinished(s: State, unit: Unit, between: seq<Action>, max: int, k: (string, int))
    requires Inv(s, max) && Interrupted(s, unit, between, max)
    requires k in Rolled(s, unit, between, max).epochs && Rolled(s, unit, between, max).epochs[k].pc == Completing
    ensures var t := Reach(Written(s, unit, max), between, max);
            k.0 in t.st.runs && Terminal(t.st.runs[k.0].status)
  {
    hide Next, Inv, Alongside, EpochStep, TakesUnit, Prolongs, Vouched, Reach;
    var x := Written(s, unit, max);
    var t := Reach(x, between, max);
    WrittenVouched(s, unit, max);
    ReachableInv(x, between, max);
    if OwnedBy(unit, k) {
      OwnerDoesNotComplete(s, unit, max, k);
    }
    SeesFinished(t, max, k);
  }

  lemma SeesFinished(t: State, max: int, k: (string, int))
    requires Inv(t, max) && k in t.epochs && t.epochs[k].pc == Completing
    ensures k.0 in t.st.runs && Terminal(t.st.runs[k.0].status)
  {
    hide StoreOk;
    assert EpochOk(t.st, k, t.epochs[k]);
  }

  lemma OwnerDoesNotComplete(s: State, unit: Unit, max: int, k: (string, int))
    requires Inv(s, max) && OwnedBy(unit, k) && TakesUnit(s, unit.value)
    ensures k in s.epochs && Grounded(s.st, k.0) && EpochStep(s.st, k, s.epochs[k], Fault, max).1 != Completing
  {
    hide StoreOk, EpochStep, PcTakesUnit;
    assert EpochOk(s.st, k, s.epochs[k]);
    FailedCallIsSafe(s.st, k, s.epochs[k], unit.value.choice, max);
  }

  /** If the run was not finished while the unit was open, by the unit or beside it, its rollback
      never loses the run, whatever else it undoes: acquisitions, heartbeats, releases, completions. */
  lemma RollbackWithoutFinishIsHarmless(clock: int, before: seq<Action>, unit: Unit, between: seq<Action>,
                                        turns: seq<Turn>, max: int, r: string)
    requires Interrupted(Reached(clock, before, max), unit, between, max)
    requires var s := Reached(clock, before, max);
             var t := Reach(Written(s, unit, max), between, max);
             r in t.st.runs && Terminal(t.st.runs[r].status) ==> r in s.st.runs && Terminal(s.st.runs[r].status)
    ensures !Lost(PlayAll(Crowd(Rolled(Reached(clock, before, max), unit, between, max), []), turns, max).now.st, r)
  {
    hide Interrupted, Rolled, Lost, Next, Reach, PlayAll, Inv, Terminal;
    var s := Reached(clock, before, max);
    var u := Rolled(s, unit, between, max);
    ReachedInv(clock, before, max);
    RollbackLosesIff(clock, before, unit, between, max, r);
    forall k | k in u.epochs && k.0 == r ensures !CompletesTooEarly(s.st, k, u.epochs[k]) {
      if u.epochs[k].pc == Completing {
        CompletingSawFinished(s, unit, between, max, k);
      }
    }
  }

  /** Between st and u nobody wrote a run or a thread. */
  ghost predicate Unwritten(st: Store, u: Store) {
    && u.runs == st.runs && u.threads == st.threads && u.keys == st.keys
    && u.runLog == st.runLog && u.threadLog == st.threadLog && u.events == st.events
  }

  lemma PcStays(st: Store, u: Store, r: string, pc: Pc)
    requires Unwritten(st, u) && Grounded(u, r) && PcOk(u, r, pc)
    ensures Grounded(st, r) && PcOk(st, r, pc)
  {
    assert forall t, q :: Active(st, t, q) <==> Active(u, t, q);
  }

  lemma RolledBackStore(st: Store, clock: int, issued: set<string>)
    requires StoreOk(st)
    ensures StoreOk(st.(clock := clock, issued := issued))
  {
    var u := st.(clock := clock, issued := issued);
    assert forall t, q :: Active(st, t, q) <==> Active(u, t, q);
    forall r | r in u.runs ensures RunOk(u, r) && ActiveOk(u, r) {
      assert RunOk(st, r) && ActiveOk(st, r);
    }
    forall t | t in u.threads ensures ThreadOk(u, t) {
      assert ThreadOk(st, t);
    }
  }

  lemma RollbackKeeps(s: State, t: State, max: int)
    requires Inv(s, max) && Inv(t, max) && Unwritten(s.st, t.st) && t.epochs.Keys == s.epochs.Keys
    ensures Inv(RollBack(s, None, t, max), max)
  {
    hide StoreOk, PcOk, Unwritten;
    var u := RollBack(s, None, t, max);
    assert u.epochs == t.epochs;
    RolledBackStore(s.st, t.st.clock, t.st.issued);
    forall k | k in u.epochs ensures EpochOk(u.st, k, u.epochs[k]) {
      assert EpochOk(s.st, k, s.epochs[k]) && EpochOk(t.st, k, t.epochs[k]);
      assert Unwritten(u.st, t.st) by { UnwrittenAfter(s.st, t.st, t.st.clock, t.st.issued); }
      PcStays(u.st, t.st, k.0, t.epochs[k].pc);
    }
    OthersStay(s, t, max);
  }

  lemma UnwrittenAfter(st: Store, u: Store, clock: int, issued: set<string>)
    requires Unwritten(st, u)
    ensures Unwritten(st.(clock := clock, issued := issued), u)
  {
  }

  lemma OthersStay(s: State, t: State, max: int)
    requires Inv(t, max) && Unwritten(s.st, t.st)
    ensures var u := RollBack(s, None, t, max);
            && (forall k :: k in u.epochs && u.epochs[k].pc.Emitting? ==> EmitsAlone(u.st, u.epochs, k))
            && (forall id :: id in u.starters ==> StarterOk(u.st, u.starters[id]))
  {
    hide StoreOk, EpochOk;
    var u := RollBack(s, None, t, max);
    forall k | k in u.epochs && u.epochs[k].pc.Emitting? ensures EmitsAlone(u.st, u.epochs, k) {
      assert EmitsAlone(t.st, t.epochs, k);
    }
    forall id | id in u.starters ensures StarterOk(u.st, u.starters[id]) {
      assert StarterOk(t.st, t.starters[id]);
    }
  }

  // ----- a failure is rolled back

  /** A live epoch at a stage from which it can fail its current run. */
  ghost predicate CanStillFail(s: State, k: (string, int)) {
    && k in s.epochs && s.epochs[k].pc.At? && CanFail(s.epochs[k].pc.stage) && !s.epochs[k].lost
    && k.0 in s.st.runs && s.epochs[k].pc.run.version == s.st.runs[k.0].version
    && TryComplete(s.st.claims, Credential(k, s.epochs[k])).Ok?
  }

  /** The epoch fails its run outside any unit, cannot emit the event, and reloads the run. */
  function FailsAndReloads(k: (string, int)): (acts: seq<Action>) {
    [Step(k, FailRun), Step(k, Fault), Step(k, Go)]
  }

  lemma FailStep(s: State, k: (string, int), max: int)
    requires k in s.epochs && s.epochs[k].pc.At? && CanFail(s.epochs[k].pc.stage) && Grounded(s.st, k.0)
    requires s.epochs[k].pc.run.version == s.st.runs[k.0].version
    requires s.epochs[k].pc.run.thread == s.st.runs[k.0].thread
    requires CanTransitionRun(s.epochs[k].pc.run.status, RunFailed)
    ensures var t := Next(s, Step(k, FailRun), max);
            && Grounded(t.st, k.0) && t.st.runs[k.0].status == RunFailed
            && k in t.epochs && t.epochs[k] == s.epochs[k].(pc := Emitting(RunFailed, s.epochs[k].pc.thread))
  {
    hide EmitStep, ReadStep, ClaimStep, RouteStep;
  }

  lemma EmitFails(s: State, k: (string, int), max: int)
    requires k in s.epochs && s.epochs[k].pc.Emitting? && s.epochs[k].pc.outcome == RunFailed && Grounded(s.st, k.0)
    ensures var t := Next(s, Step(k, Fault), max);
            t.st == s.st && k in t.epochs && t.epochs[k] == s.epochs[k].(pc := Disposing)
  {
    hide StageStep, ClaimStep, RouteStep, RunStep, ReadStep;
  }

  /** Reloading a run that is, or seems, finished. */
  lemma ReloadStep(s: State, k: (string, int), max: int)
    requires k in s.epochs && s.epochs[k].pc == Disposing && !s.epochs[k].lost
    requires Grounded(s.st, k.0) && Terminal(s.st.runs[k.0].status)
    ensures var t := Next(s, Step(k, Go), max);
            k in t.epochs && t.epochs[k] == s.epochs[k].(pc := Completing)
  {
    hide StageStep, ClaimStep, RouteStep, RunStep, EmitStep;
  }

  lemma OneAction(s: State, unit: Unit, a: Action, max: int)
    requires !TakesUnit(s, a) && (a.Step? || a.Crash? ==> !OwnedBy(unit, a.k))
    ensures Reach(s, [a], max) == Next(s, a, max) && Alongside(s, unit, [a], max)
  {
    hide Next, TakesUnit;
  }

  lemma MoreActions(s: State, unit: Unit, a: Action, rest: seq<Action>, max: int)
    requires !TakesUnit(s, a) && (a.Step? || a.Crash? ==> !OwnedBy(unit, a.k))
    requires Alongside(Next(s, a, max), unit, rest, max)
    ensures Reach(s, [a] + rest, max) == Reach(Next(s, a, max), rest, max) && Alongside(s, unit, [a] + rest, max)
  {
    hide Next, TakesUnit;
    assert ([a] + rest)[1..] == rest;
  }

  lemma FailureRunsAlongside(s: State, k: (string, int), max: int)
    requires Inv(s, max) && CanStillFail(s, k)
    ensures Interrupted(s, None, FailsAndReloads(k), max)
    ensures var t := Reach(s, FailsAndReloads(k), max);
            k in t.epochs && t.epochs[k] == s.epochs[k].(pc := Completing)
  {
    hide Inv, Next, TryComplete, Alongside, Reach;
    FailIsWritten(s, k, max);
    var s1 := Next(s, Step(k, FailRun), max);
    EmitFails(s1, k, max);
    var s2 := Next(s1, Step(k, Fault), max);
    ReloadStep(s2, k, max);
    OneAction(s2, None, Step(k, Go), max);
    MoreActions(s1, None, Step(k, Fault), [Step(k, Go)], max);
    MoreActions(s, None, Step(k, FailRun), [Step(k, Fault)] + [Step(k, Go)], max);
    assert FailsAndReloads(k) == [Step(k, FailRun)] + ([Step(k, Fault)] + [Step(k, Go)]);
  }

  lemma FailIsWritten(s: State, k: (string, int), max: int)
    requires Inv(s, max) && CanStillFail(s, k)
    ensures var t := Next(s, Step(k, FailRun), max);
            && Grounded(t.st, k.0) && t.st.runs[k.0].status == RunFailed
            && k in t.epochs && t.epochs[k] == s.epochs[k].(pc := Emitting(RunFailed, s.epochs[k].pc.thread))
  {
    hide StoreOk, Next, TryComplete;
    assert EpochOk(s.st, k, s.epochs[k]);
    StoreRun(s.st, k.0);
    TerminalIsAbsorbing(s.epochs[k].pc.run.status);
    FailStep(s, k, max);
  }

  /** In every reached state with such an epoch: if some unit is open while the epoch fails its run and
      sees it finished, and is then rolled back, the epoch's completion loses the run. */
  lemma RollbackOverAFailureLosesTheRun(clock: int, before: seq<Action>, max: int, k: (string, int))
    requires CanStillFail(Reached(clock, before, max), k)
    ensures var s := Reached(clock, before, max);
            && Interrupted(s, None, FailsAndReloads(k), max)
            && Lost(PlayAll(Crowd(Rolled(s, None, FailsAndReloads(k), max), []), [Turn(Step(k, Go))], max).now.st, k.0)
  {
    hide Next, Reached, Lost, PlayAll, Interrupted, TryComplete, Steady, HandedOut;
    var s := Reached(clock, before, max);
    ReachedInv(clock, before, max);
    ReachedHandsOut(clock, before, max);
    FailureRunsAlongside(s, k, max);
    RolledSteady(s, None, FailsAndReloads(k), max, k.0);
    UnfinishedCopy(s, k, max);
    CompletionLoses(s, None, FailsAndReloads(k), max, k);
  }

  lemma UnfinishedCopy(s: State, k: (string, int), max: int)
    requires Inv(s, max) && k in s.epochs && k.0 in s.st.runs
    requires var pc := s.epochs[k].pc;
             || (pc.At? && pc.run.version == s.st.runs[k.0].version)
             || (pc.ConvergeReady? && pc.run.version == s.st.runs[k.0].version)
    ensures !Terminal(s.st.runs[k.0].status)
  {
    hide StoreOk;
    assert EpochOk(s.st, k, s.epochs[k]);
    StoreRun(s.st, k.0);
    FreshCopy(s.st, k.0, s.epochs[k].pc.run);
  }

  // ----- an uncommitted convergence is seen

  /** Epoch w is about to converge the run, epoch k holds its claim and is about to reload it. */
  ghost predicate Overlap(s: State, w: (string, int), k: (string, int)) {
    && w in s.epochs && k in s.epochs && w != k && w.0 == k.0 && k.0 in s.st.runs
    && s.epochs[w].pc.ConvergeReady? && s.epochs[w].pc.run.version == s.st.runs[k.0].version
    && s.epochs[k].pc == Disposing && !s.epochs[k].lost
    && TryComplete(s.st.claims, Credential(k, s.epochs[k])).Ok?
  }

  lemma ConvergeStep(s: State, w: (string, int), max: int)
    requires w in s.epochs && s.epochs[w].pc.ConvergeReady? && Grounded(s.st, w.0)
    requires s.epochs[w].pc.run.version == s.st.runs[w.0].version && !Terminal(s.epochs[w].pc.run.status)
    requires s.epochs[w].pc.run.thread == s.st.runs[w.0].thread
    ensures var t := Next(s, Step(w, Go), max);
            && Grounded(t.st, w.0) && Terminal(t.st.runs[w.0].status)
            && forall k :: k in s.epochs && k != w ==> k in t.epochs && t.epochs[k] == s.epochs[k]
  {
    hide EmitStep, ReadStep, ClaimStep, RouteStep, StageStep;
    TerminalIsAbsorbing(s.epochs[w].pc.run.status);
  }

  lemma ConvergenceIsSeen(s: State, w: (string, int), k: (string, int), max: int)
    requires Inv(s, max) && Overlap(s, w, k)
    ensures Interrupted(s, Some(Step(w, Go)), [Step(k, Go)], max)
    ensures var u := Rolled(s, Some(Step(w, Go)), [Step(k, Go)], max);
            k in u.epochs && u.epochs[k] == s.epochs[k].(pc := Completing)
  {
    hide StoreOk, Next, TryComplete, EpochStep, Alongside, Reach, ThreadCopy, Owns;
    assert EpochOk(s.st, w, s.epochs[w]) && EpochOk(s.st, k, s.epochs[k]);
    ConvergeStep(s, w, max);
    var x := Next(s, Step(w, Go), max);
    ReloadStep(x, k, max);
    OneAction(x, Some(Step(w, Go)), Step(k, Go), max);
  }

  /** A unit's own write can be seen before it is rolled back: in every reached state with such epochs,
      if k reloads the run between w's terminal write and the failure of w's unit, k's completion loses
      the run. */
  lemma UncommittedConvergenceLosesTheRun(clock: int, before: seq<Action>, max: int, w: (string, int),
                                          k: (string, int))
    requires Overlap(Reached(clock, before, max), w, k)
    ensures var s := Reached(clock, before, max);
            && Interrupted(s, Some(Step(w, Go)), [Step(k, Go)], max)
            && Lost(PlayAll(Crowd(Rolled(s, Some(Step(w, Go)), [Step(k, Go)], max), []), [Turn(Step(k, Go))],
                            max).now.st, k.0)
  {
    hide Next, Reached, Lost, PlayAll, Interrupted, Rolled, TryComplete, Steady, HandedOut;
    var s := Reached(clock, before, max);
    ReachedInv(clock, before, max);
    ReachedHandsOut(clock, before, max);
    ConvergenceIsSeen(s, w, k, max);
    RolledSteady(s, Some(Step(w, Go)), [Step(k, Go)], max, k.0);
    UnfinishedCopy(s, w, max);
    CompletionLoses(s, Some(Step(w, Go)), [Step(k, Go)], max, k);
  }
}
