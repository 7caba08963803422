/** The closed state machines of runs and threads: each table lists the legal
    successors of every status, and a status history is a path of its table. */
module Lifecycle {

  datatype RunStatus =
    | RunPending | RunPlanning | RunExecuting | RunIntegrating | RunVerifying
    | RunReporting | RunCompleted | RunFailed | RunCancelled

  function RunEdges(s: RunStatus): (next: seq<RunStatus>) {
    match s
    case RunPending => [RunPlanning, RunCancelled]
    case RunPlanning => [RunExecuting, RunFailed, RunCancelled]
    case RunExecuting => [RunIntegrating, RunVerifying, RunFailed, RunCancelled]
    case RunIntegrating => [RunVerifying, RunFailed, RunCancelled]
    case RunVerifying => [RunReporting, RunFailed, RunCancelled]
    case RunReporting => [RunCompleted, RunFailed, RunCancelled]
    case RunCompleted => []
    case RunFailed => []
    case RunCancelled => []
  }

  predicate CanTransitionRun(from: RunStatus, to: RunStatus) {
    to in RunEdges(from)
  }

  predicate Terminal(s: RunStatus) {
    s == RunCompleted || s == RunFailed || s == RunCancelled
  }

  /** A history of a run: starts pending and follows the table. */
  ghost predicate RunPath(h: seq<RunStatus>) {
    && h != [] && h[0] == RunPending
    && forall i, j :: 0 <= i < j < |h| && j == i + 1 ==> CanTransitionRun(h[i], h[j])
  }

  /** Distance from the start of the pipeline; every edge increases it. */
  function RunRank(s: RunStatus): (n: nat) {
    match s
    case RunPending => 0
    case RunPlanning => 1
    case RunExecuting => 2
    case RunIntegrating => 3
    case RunVerifying => 4
    case RunReporting => 5
    case _ => 6
  }

  /** The terminal statuses are exactly the ones without successors, and every
      other status can be cancelled; all but pending can fail. */
  lemma TerminalIsAbsorbing(s: RunStatus)
    ensures Terminal(s) <==> RunEdges(s) == []
    ensures !Terminal(s) ==> CanTransitionRun(s, RunCancelled)
    ensures !Terminal(s) && s != RunPending ==> CanTransitionRun(s, RunFailed)
    ensures !CanTransitionRun(RunPending, RunFailed)
  {
    match s
    case RunPending => assert RunEdges(s)[1] == RunCancelled;
    case RunPlanning => assert RunEdges(s)[1] == RunFailed && RunEdges(s)[2] == RunCancelled;
    case RunExecuting => assert RunEdges(s)[2] == RunFailed && RunEdges(s)[3] == RunCancelled;
    case RunIntegrating => assert RunEdges(s)[1] == RunFailed && RunEdges(s)[2] == RunCancelled;
    case RunVerifying => assert RunEdges(s)[1] == RunFailed && RunEdges(s)[2] == RunCancelled;
    case RunReporting => assert RunEdges(s)[1] == RunFailed && RunEdges(s)[2] == RunCancelled;
    case _ =>
  }

  /** A run moves on by exactly one stage, except that executing may skip integrating. */
  lemma RunMovesOneStage(a: RunStatus, b: RunStatus)
    requires !Terminal(b)
    ensures CanTransitionRun(a, b) <==>
              RunRank(b) == RunRank(a) + 1 || (a == RunExecuting && b == RunVerifying)
    ensures CanTransitionRun(a, RunCompleted) <==> a == RunReporting
  {
    match a case _ =>
    assert RunEdges(RunPending)[0] == RunPlanning && RunEdges(RunPlanning)[0] == RunExecuting;
    assert RunEdges(RunExecuting)[0] == RunIntegrating && RunEdges(RunExecuting)[1] == RunVerifying;
    assert RunEdges(RunIntegrating)[0] == RunVerifying && RunEdges(RunVerifying)[0] == RunReporting;
    assert RunEdges(RunReporting)[0] == RunCompleted;
  }

  lemma EdgeIncreasesRank(a: RunStatus, b: RunStatus)
    requires CanTransitionRun(a, b)
    ensures RunRank(a) < RunRank(b) && !Terminal(a)
  {
    var i :| 0 <= i < |RunEdges(a)| && RunEdges(a)[i] == b;
    match a case _ =>
  }

  /** A history visits at most seven statuses, and only its last one can be terminal. */
  lemma {:induction false} RunPathIsShort(h: seq<RunStatus>)
    requires RunPath(h)
    ensures |h| <= RunRank(h[|h| - 1]) + 1 <= 7
    ensures forall i :: 0 <= i < |h| - 1 ==> !Terminal(h[i])
  {
    if |h| > 1 {
      var p := h[..|h| - 1];
      assert forall i :: 0 <= i < |p| ==> p[i] == h[i];
      RunPathIsShort(p);
      EdgeIncreasesRank(h[|h| - 2], h[|h| - 1]);
      assert h[|h| - 2] == p[|p| - 1];
    }
  }

  datatype ThreadStatus =
    | ThreadIdle | ThreadPlanning | ThreadAwaitingInput | ThreadReadyToExecute
    | ThreadExecuting | ThreadWaitingExternal | ThreadNeedsAttention | ThreadReviewing
    | ThreadFixing | ThreadReadyForReview | ThreadMerged | ThreadFailed | ThreadArchived

  function ThreadEdges(s: ThreadStatus): (next: seq<ThreadStatus>) {
    match s
    case ThreadIdle => [ThreadPlanning, ThreadArchived]
    case ThreadPlanning => [ThreadAwaitingInput, ThreadReadyToExecute, ThreadFailed, ThreadArchived]
    case ThreadAwaitingInput => [ThreadPlanning, ThreadReadyToExecute, ThreadArchived]
    case ThreadReadyToExecute => [ThreadExecuting, ThreadNeedsAttention, ThreadArchived]
    case ThreadExecuting =>
      [ThreadWaitingExternal, ThreadNeedsAttention, ThreadReviewing, ThreadFailed, ThreadArchived]
    case ThreadWaitingExternal => [ThreadExecuting, ThreadFailed, ThreadArchived]
    case ThreadNeedsAttention => [ThreadExecuting, ThreadArchived]
    case ThreadReviewing => [ThreadFixing, ThreadReadyForReview, ThreadFailed, ThreadArchived]
    case ThreadFixing => [ThreadReviewing, ThreadArchived]
    case ThreadReadyForReview => [ThreadMerged, ThreadIdle, ThreadArchived]
    case ThreadMerged => [ThreadArchived]
    case ThreadFailed => [ThreadIdle, ThreadArchived]
    case ThreadArchived => []
  }

  predicate CanTransitionThread(from: ThreadStatus, to: ThreadStatus) {
    to in ThreadEdges(from)
  }

  ghost predicate ThreadPath(h: seq<ThreadStatus>) {
    && h != [] && h[0] == ThreadIdle
    && forall i, j :: 0 <= i < j < |h| && j == i + 1 ==> CanTransitionThread(h[i], h[j])
  }

  /** From where each status of a thread is entered. */
  function EnteredFrom(s: ThreadStatus): (from: set<ThreadStatus>) {
    match s
    case ThreadIdle => {ThreadReadyForReview, ThreadFailed}
    case ThreadPlanning => {ThreadIdle, ThreadAwaitingInput}
    case ThreadAwaitingInput => {ThreadPlanning}
    case ThreadReadyToExecute => {ThreadPlanning, ThreadAwaitingInput}
    case ThreadExecuting => {ThreadReadyToExecute, ThreadWaitingExternal, ThreadNeedsAttention}
    case ThreadWaitingExternal => {ThreadExecuting}
    case ThreadNeedsAttention => {ThreadReadyToExecute, ThreadExecuting}
    case ThreadReviewing => {ThreadExecuting, ThreadFixing}
    case ThreadFixing => {ThreadReviewing}
    case ThreadReadyForReview => {ThreadReviewing}
    case ThreadMerged => {ThreadReadyForReview}
    case ThreadFailed => {ThreadPlanning, ThreadExecuting, ThreadWaitingExternal, ThreadReviewing}
    case ThreadArchived =>
      {ThreadIdle, ThreadPlanning, ThreadAwaitingInput, ThreadReadyToExecute, ThreadExecuting, ThreadWaitingExternal,
       ThreadNeedsAttention, ThreadReviewing, ThreadFixing, ThreadReadyForReview, ThreadMerged, ThreadFailed}
  }

  lemma Members(es: seq<ThreadStatus>, to: ThreadStatus)
    requires |es| <= 5
    ensures to in es <==>
              || (|es| > 0 && es[0] == to) || (|es| > 1 && es[1] == to) || (|es| > 2 && es[2] == to)
              || (|es| > 3 && es[3] == to) || (|es| > 4 && es[4] == to)
  {
  }

  /** The table read from its ends: in particular only an archived thread has no way on. */
  lemma ThreadEntries(from: ThreadStatus, to: ThreadStatus)
    ensures CanTransitionThread(from, to) <==> from in EnteredFrom(to)
  {
    Members(ThreadEdges(from), to);
    match from case _ =>
  }

  /** Only an idle or waiting thread has an edge into planning. */
  lemma PlanningEntry(s: ThreadStatus)
    ensures CanTransitionThread(s, ThreadPlanning) <==> s == ThreadIdle || s == ThreadAwaitingInput
  {
    if s == ThreadIdle {
      assert ThreadEdges(s)[0] == ThreadPlanning;
    }
    if s == ThreadAwaitingInput {
      assert ThreadEdges(s)[0] == ThreadPlanning;
    }
  }
}
