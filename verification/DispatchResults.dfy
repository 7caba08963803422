/** Main results about run dispatch: what holds in every state reachable from the
    empty store, whatever the workers, requests, faults and crashes do. */
module DispatchResults {
  import opened Lifecycle
  import opened Dispatch
  import opened DispatchInvariant
  import opened DispatchSafety
  import opened DispatchTheorems

  ghost function Reached(clock: int, acts: seq<Action>, max: int): (s: State) {
    Reach(Initial(clock), acts, max)
  }

  lemma ReachedInv(clock: int, acts: seq<Action>, max: int)
    ensures Inv(Reached(clock, acts, max), max)
  {
    ReachableInv(Initial(clock), acts, max);
  }

  // ----- no run is lost

  /** Every run without a claim row has finished. */
  lemma NoRunIsLost(clock: int, acts: seq<Action>, max: int, r: string)
    ensures var st := Reached(clock, acts, max).st;
            r in st.runs && r !in st.claims ==> Terminal(st.runs[r].status)
  {
    ReachedInv(clock, acts, max);
    var st := Reached(clock, acts, max).st;
    if r in st.runs {
      StoreRun(st, r);
    }
  }

  // ----- one active run per thread

  /** At most one unfinished run per thread, and only while the thread is planning,
      ready, executing or reviewing; in particular an idle or waiting thread is free. */
  lemma OneActiveRunPerThread(clock: int, acts: seq<Action>, max: int, t: string, q: string, r: string)
    ensures var st := Reached(clock, acts, max).st;
            Active(st, t, r) ==>
              && (Active(st, t, q) ==> q == r)
              && t in st.threads && Working(st.threads[t].status)
              && (st.runs[r].status == RunPending ==> st.threads[t].status == ThreadPlanning)
  {
    ReachedInv(clock, acts, max);
    var st := Reached(clock, acts, max).st;
    if Active(st, t, r) {
      StoreRun(st, r);
    }
  }

  /** A start key names one run of its thread for ever. */
  lemma StartsAreIdempotent(clock: int, acts: seq<Action>, max: int, q: string, r: string)
    ensures var st := Reached(clock, acts, max).st;
            (q in st.runs && r in st.runs
             && st.runs[q].thread == st.runs[r].thread && st.runs[q].key == st.runs[r].key) ==> q == r
  {
    ReachedInv(clock, acts, max);
    var st := Reached(clock, acts, max).st;
    if q in st.runs && r in st.runs {
      StoreRun(st, q);
      StoreRun(st, r);
    }
  }

  // ----- histories

  /** The stored history of a run is a path of the table ending in its status, so it
      has at most seven entries and none but the last is terminal. */
  lemma RunHistoryFollowsTable(clock: int, acts: seq<Action>, max: int, r: string)
    requires r in Reached(clock, acts, max).st.runs
    ensures var st := Reached(clock, acts, max).st;
            && r in st.runLog && RunPath(st.runLog[r])
            && st.runs[r].version == |st.runLog[r]| <= 7
            && st.runs[r].status == st.runLog[r][|st.runLog[r]| - 1]
            && forall i :: 0 <= i < |st.runLog[r]| - 1 ==> !Terminal(st.runLog[r][i])
  {
    ReachedInv(clock, acts, max);
    StoreRun(Reached(clock, acts, max).st, r);
    RunPathIsShort(Reached(clock, acts, max).st.runLog[r]);
  }

  lemma ThreadHistoryFollowsTable(clock: int, acts: seq<Action>, max: int, t: string)
    requires t in Reached(clock, acts, max).st.threads
    ensures var st := Reached(clock, acts, max).st;
            && t in st.threadLog && ThreadPath(st.threadLog[t])
            && st.threads[t].version == |st.threadLog[t]|
            && st.threads[t].status == st.threadLog[t][|st.threadLog[t]| - 1]
  {
    ReachedInv(clock, acts, max);
    assert ThreadOk(Reached(clock, acts, max).st, t);
  }

  lemma NextGrowsLog(s: State, a: Action, max: int, r: string)
    requires Inv(s, max) && r in s.st.runs
    ensures Grounded(s.st, r) && Grounded(Next(s, a, max).st, r)
    ensures s.st.runLog[r] <= Next(s, a, max).st.runLog[r]
  {
    hide EpochStep, StoreOk;
    StoreRun(s.st, r);
    if a.Step? && a.k in s.epochs && Grounded(s.st, a.k.0) {
      assert EpochOk(s.st, a.k, s.epochs[a.k]);
      assert s.epochs[a.k].pc.Emitting? ==> EmitsAlone(s.st, s.epochs, a.k);
      EpochStepOk(s.st, a.k, s.epochs[a.k], a.choice, max);
      assert RunEvolves(s.st, Next(s, a, max).st, r);
    }
  }

  lemma {:induction false} LogGrows(s: State, acts: seq<Action>, max: int, r: string)
    requires Inv(s, max) && r in s.st.runs
    ensures r in s.st.runLog
    ensures var u := Reach(s, acts, max).st;
            r in u.runs && r in u.runLog && s.st.runLog[r] <= u.runLog[r]
    decreases |acts|
  {
    hide Next;
    StoreRun(s.st, r);
    if acts != [] {
      NextGrowsLog(s, acts[0], max, r);
      NextKeeps(s, acts[0], max);
      LogGrows(Next(s, acts[0], max), acts[1..], max, r);
    }
  }

  /** A finished run never changes its status again, whatever stale copies try to write. */
  lemma TerminalIsForever(clock: int, before: seq<Action>, after: seq<Action>, max: int, r: string)
    requires var st := Reached(clock, before, max).st; r in st.runs && Terminal(st.runs[r].status)
    ensures var u := Reach(Reached(clock, before, max), after, max).st;
            r in u.runs && u.runs[r].status == Reached(clock, before, max).st.runs[r].status
  {
    hide Inv, EpochStep, Next;
    var s := Reached(clock, before, max);
    var u := Reach(s, after, max);
    ReachedInv(clock, before, max);
    ReachableInv(s, after, max);
    InvStore(s, max);
    InvStore(u, max);
    StoreRun(s.st, r);
    LogGrows(s, after, max, r);
    StoreRun(u.st, r);
    RunPathIsShort(u.st.runLog[r]);
  }

  // ----- events

  /** The status events of a run are its history after pending, in order, where at
      most the terminal one may be missing; so at most one terminal event exists. */
  lemma EventsFollowHistory(clock: int, acts: seq<Action>, max: int, r: string)
    requires r in Reached(clock, acts, max).st.runs
    ensures var st := Reached(clock, acts, max).st;
            && r in st.events && r in st.runLog && EventsOk(st.runLog[r], st.events[r])
            && forall i :: 0 <= i < |st.events[r]| - 1 ==> !Terminal(st.events[r][i])
  {
    ReachedInv(clock, acts, max);
    var st := Reached(clock, acts, max).st;
    StoreRun(st, r);
    RunPathIsShort(st.runLog[r]);
    forall i | 0 <= i < |st.events[r]| - 1 ensures !Terminal(st.events[r][i]) {
      assert st.events[r][i] == st.runLog[r][i + 1];
    }
  }

  // ----- dispatch budget

  ghost function CallsFor(calls: seq<(string, int)>, r: string): (n: nat) {
    if calls == [] then 0 else (if calls[0].0 == r then 1 else 0) + CallsFor(calls[1..], r)
  }

  ghost function Generations(calls: seq<(string, int)>, r: string): (gs: set<int>) {
    set i | 0 <= i < |calls| && calls[i].0 == r :: calls[i].1
  }

  lemma {:induction false} DistinctCallsCount(calls: seq<(string, int)>, r: string)
    requires forall i, j :: 0 <= i < j < |calls| ==> calls[i] != calls[j]
    ensures CallsFor(calls, r) == |Generations(calls, r)|
  {
    if calls != [] {
      var rest := calls[1..];
      DistinctCallsCount(rest, r);
      forall g ensures g in Generations(rest, r) ==> (r, g) != calls[0] {
        if g in Generations(rest, r) {
          var i :| 0 <= i < |rest| && rest[i] == (r, g);
          assert calls[i + 1] == (r, g);
        }
      }
      if calls[0].0 == r {
        assert Generations(calls, r) == Generations(rest, r) + {calls[0].1} by {
          GenerationsStep(calls, r);
        }
        assert calls[0] == (r, calls[0].1);
      } else {
        assert Generations(calls, r) == Generations(rest, r) by {
          GenerationsStep(calls, r);
        }
      }
    }
  }

  lemma GenerationsStep(calls: seq<(string, int)>, r: string)
    requires calls != []
    ensures Generations(calls, r) == Generations(calls[1..], r) + (if calls[0].0 == r then {calls[0].1} else {})
  {
    forall g ensures g in Generations(calls, r) <==>
        g in Generations(calls[1..], r) || (calls[0].0 == r && g == calls[0].1) {
      if g in Generations(calls, r) {
        var i :| 0 <= i < |calls| && calls[i].0 == r && calls[i].1 == g;
        assert i > 0 ==> calls[1..][i - 1] == calls[i];
      }
      if g in Generations(calls[1..], r) {
        var i :| 0 <= i < |calls[1..]| && calls[1..][i].0 == r && calls[1..][i].1 == g;
        assert calls[i + 1] == calls[1..][i];
      }
    }
  }

  lemma {:induction false} BoundedSet(gs: set<int>, max: nat)
    requires forall g :: g in gs ==> 1 <= g <= max
    ensures |gs| <= max
  {
    if max == 0 {
      assert forall g :: g !in gs;
    } else {
      BoundedSet(gs - {max}, max - 1);
      assert |gs| <= |gs - {max}| + 1;
    }
  }

  /** All workers together call Execute at most max times for one run. */
  lemma ExecuteIsBounded(clock: int, acts: seq<Action>, max: nat, r: string)
    ensures CallsFor(Reached(clock, acts, max).calls, r) <= max
  {
    ReachedInv(clock, acts, max);
    var calls := Reached(clock, acts, max).calls;
    DistinctCallsCount(calls, r);
    BoundedSet(Generations(calls, r), max);
  }

  /** Every claim counts its acquisitions twice over, consistently. */
  lemma GenerationIsAttempts(clock: int, acts: seq<Action>, max: int, r: string)
    requires r in Reached(clock, acts, max).st.claims
    ensures var c := Reached(clock, acts, max).st.claims[r]; c.generation == c.attempts >= 0
  {
    ReachedInv(clock, acts, max);
  }

  // ----- the pipeline never asks for an illegal move

  /** Whatever stage an epoch is at, the move it plans is an edge of its table, a
      failure it may report is an edge, and so is a cancellation. */
  lemma PipelineMovesAreLegal(clock: int, acts: seq<Action>, max: int, k: (string, int))
    requires var s := Reached(clock, acts, max); k in s.epochs && s.epochs[k].pc.At?
    ensures var pc := Reached(clock, acts, max).epochs[k].pc;
            && (match Forward(pc.stage)
                case MoveRun(next, _) => CanTransitionRun(pc.run.status, next)
                case MoveThread(next, _) => CanTransitionThread(pc.thread.status, next)
                case Finish => CanTransitionRun(pc.run.status, RunCompleted))
            && (CanFail(pc.stage) ==> CanTransitionRun(pc.run.status, RunFailed))
            && CanTransitionRun(pc.run.status, RunCancelled)
  {
    hide StoreOk, Reached, RunCopy, ThreadCopy, Owns, Grounded;
    ReachedInv(clock, acts, max);
    var s := Reached(clock, acts, max);
    assert EpochOk(s.st, k, s.epochs[k]);
    StageMovesAreLegal(s.epochs[k].pc);
  }

  /** Whatever a stage writes is an edge from the statuses its copies have there. */
  lemma StageMovesAreLegal(pc: Pc)
    requires pc.At? && pc.run.status == StageRun(pc.stage)
    requires pc.stage != Loaded ==> pc.thread.status == StageThread(pc.stage)
    ensures match Forward(pc.stage)
            case MoveRun(next, _) => CanTransitionRun(pc.run.status, next)
            case MoveThread(next, _) => CanTransitionThread(pc.thread.status, next)
            case Finish => CanTransitionRun(pc.run.status, RunCompleted)
    ensures CanFail(pc.stage) ==> CanTransitionRun(pc.run.status, RunFailed)
    ensures CanTransitionRun(pc.run.status, RunCancelled)
  {
  }

  /** Cancelling leaves the thread where it is exactly when it is under review. */
  lemma CancellationRoutesThread(clock: int, acts: seq<Action>, max: int, k: (string, int))
    requires var s := Reached(clock, acts, max);
             k in s.epochs && s.epochs[k].pc.At? && CanCancel(s.epochs[k].pc.stage)
    ensures var pc := Reached(clock, acts, max).epochs[k].pc;
            && (RouteCancelled(pc.thread.status).None? <==> pc.stage == Reviewing)
            && (RouteCancelled(pc.thread.status).Some? ==>
                  CanTransitionThread(pc.thread.status, RouteCancelled(pc.thread.status).value))
  {
    hide StoreOk;
    ReachedInv(clock, acts, max);
    var s := Reached(clock, acts, max);
    assert EpochOk(s.st, k, s.epochs[k]);
  }

  // ----- what the guarantees rest on

  /** The version check alone does not protect a run. A copy is bumped before its update is
      refused; the bumped copy would then pass, for any status that may follow, exactly when the
      run has moved on by one version. Epochs therefore abandon such copies. */
  lemma BumpedCopyPassesIff(st: Store, r: string, copy: Run, mid: RunStatus, next: RunStatus, announce: bool)
    requires StoreOk(st) && r in st.runs && Grounded(st, r) && RunCopy(st, r, copy)
    requires CanTransitionRun(copy.status, mid) && copy.version != st.runs[r].version
    ensures WriteRun(st, r, copy, mid, announce).None?
    ensures WriteRun(st, r, copy.(status := mid, version := copy.version + 1), next, announce).Some? <==>
              copy.version + 1 == st.runs[r].version && CanTransitionRun(mid, next)
    ensures WriteRun(st, r, copy.(status := mid, version := copy.version + 1), next, announce).Some? ==>
              WriteRun(st, r, copy.(status := mid, version := copy.version + 1), next, announce).value.runs[r].status ==
              next
  {
  }
}
