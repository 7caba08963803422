/** What a run leaves behind when its worker is not disturbed: its status, its events, its thread
    and its claim. */
module DispatchOutcomes {
  import opened Base
  import opened Lifecycle
  import opened Claims
  import opened Dispatch
  import opened DispatchInvariant
  import opened DispatchSafety
  import opened DispatchTheorems
  import opened DispatchResults

  /** Epoch k takes the given choices while nobody else moves. */
  ghost function Alone(s: State, k: (string, int), choices: seq<Choice>, max: int): (t: State)
    decreases |choices|
  {
    if choices == [] then s else Alone(Next(s, Step(k, choices[0]), max), k, choices[1..], max)
  }

  lemma StepAs(s: State, k: (string, int), c: Choice, max: int)
    requires k in s.epochs && Grounded(s.st, k.0)
    ensures Next(s, Step(k, c), max).st == EpochStep(s.st, k, s.epochs[k], c, max).0
    ensures k in Next(s, Step(k, c), max).epochs
    ensures Next(s, Step(k, c), max).epochs[k] == s.epochs[k].(pc := EpochStep(s.st, k, s.epochs[k], c, max).1)
  {
    hide EpochStep;
  }

  /** The run is finished: what was recorded before, then its outcome. */
  ghost predicate Finished(st: Store, u: Store, r: string, outcome: RunStatus) {
    && Grounded(st, r) && Grounded(u, r)
    && u.runs[r] == st.runs[r].(status := outcome, version := st.runs[r].version + 1)
    && u.runLog[r] == st.runLog[r] + [outcome]
  }

  // ----- one step after the other

  /** Writing the outcome, with or without its event. */
  lemma OutcomeIsWritten(st: Store, r: string, copy: Run, outcome: RunStatus, announce: bool)
    requires Grounded(st, r) && copy == st.runs[r] && CanTransitionRun(copy.status, outcome)
    ensures var o := WriteRun(st, r, copy, outcome, announce);
            && o.Some? && Finished(st, o.value, r, outcome)
            && o.value.events[r] == (if announce then st.events[r] + [outcome] else st.events[r])
            && o.value.threads == st.threads && o.value.threadLog == st.threadLog
  {
  }

  /** A lost event changes nothing; only a cancellation goes on to its thread. */
  lemma EventIsLost(s: State, k: (string, int), max: int)
    requires k in s.epochs && s.epochs[k].pc.Emitting? && Grounded(s.st, k.0)
    ensures var t, e := Next(s, Step(k, Fault), max), s.epochs[k];
            && t.st == s.st && k in t.epochs
            && t.epochs[k] == e.(pc := if e.pc.outcome == RunCancelled then Routing(e.pc.outcome, e.pc.thread)
                                       else Disposing)
  {
    hide Next, StageStep, ReadStep, ClaimStep, RunStep, RouteStep;
    StepAs(s, k, Fault, max);
  }

  lemma EventIsEmitted(s: State, k: (string, int), max: int)
    requires k in s.epochs && s.epochs[k].pc.Emitting? && Grounded(s.st, k.0)
    ensures var t, e := Next(s, Step(k, Go), max), s.epochs[k];
            && Grounded(t.st, k.0) && t.st.runs == s.st.runs && t.st.runLog == s.st.runLog
            && t.st.threads == s.st.threads && t.st.threadLog == s.st.threadLog
            && t.st.events[k.0] == s.st.events[k.0] + [e.pc.outcome]
            && k in t.epochs && t.epochs[k] == e.(pc := Routing(e.pc.outcome, e.pc.thread))
  {
    hide Next, StageStep, ReadStep, ClaimStep, RunStep, RouteStep;
    StepAs(s, k, Go, max);
  }

  /** Moving a thread along a legal edge from a current copy, or leaving it. */
  lemma ThreadIsRouted(st: Store, r: string, copy: Thread, next: Option<ThreadStatus>, done: Pc, failed: Pc)
    requires Grounded(st, r) && st.threads[st.runs[r].thread] == copy
    requires next.Some? ==> CanTransitionThread(copy.status, next.value)
    ensures var (u, pc) := RouteStep(st, r, copy, next, done, failed);
            && pc == done && Grounded(u, r) && u.runs == st.runs && u.runLog == st.runLog && u.events == st.events
            && u.threads[u.runs[r].thread].status == (if next.Some? then next.value else copy.status)
            && u.threadLog[u.runs[r].thread] ==
               st.threadLog[u.runs[r].thread] + (if next.Some? then [next.value] else [])
            && u.claims == st.claims
  {
    hide CanTransitionThread;
  }

  /** Reloading a finished run and giving up its claim, by credential or by cleanup. */
  lemma ClaimIsGivenUp(s: State, k: (string, int), max: int)
    requires k in s.epochs && s.epochs[k].pc == Disposing && !s.epochs[k].lost
    requires Grounded(s.st, k.0) && Terminal(s.st.runs[k.0].status)
    ensures var t := Alone(s, k, [Go, Go, Go], max);
            && k.0 !in t.st.claims && Grounded(t.st, k.0) && t.st.runs == s.st.runs && t.st.runLog == s.st.runLog
            && t.st.events == s.st.events && t.st.threads == s.st.threads && t.st.threadLog == s.st.threadLog
  {
    hide Next, StageStep, EmitStep, RunStep, RouteStep, ValidRef;
    var s1 := Next(s, Step(k, Go), max);
    StepAs(s, k, Go, max);
    var s2 := Next(s1, Step(k, Go), max);
    StepAs(s1, k, Go, max);
    StepAs(s2, k, Go, max);
    ThreeChoices(s, k, Go, Go, Go, max);
  }

  lemma ThreeChoices(s: State, k: (string, int), a: Choice, b: Choice, c: Choice, max: int)
    ensures Alone(s, k, [a, b, c], max) ==
              Next(Next(Next(s, Step(k, a), max), Step(k, b), max), Step(k, c), max)
  {
    hide Next;
    assert [a, b, c][1..] == [b, c] && [b, c][1..] == [c] && [c][1..] == [];
    assert Alone(s, k, [a, b, c], max) == Alone(Next(s, Step(k, a), max), k, [b, c], max);
    assert Alone(Next(s, Step(k, a), max), k, [b, c], max) ==
           Alone(Next(Next(s, Step(k, a), max), Step(k, b), max), k, [c], max);
  }

  lemma {:induction false} AloneConcat(s: State, k: (string, int), a: seq<Choice>, b: seq<Choice>, max: int)
    ensures Alone(s, k, a + b, max) == Alone(Alone(s, k, a, max), k, b, max)
    decreases |a|
  {
    hide Next;
    if a == [] {
      assert a + b == b;
    } else {
      assert (a + b)[1..] == a[1..] + b;
      AloneConcat(Next(s, Step(k, a[0]), max), k, a[1..], b, max);
    }
  }

  // ----- the end of Execute

  /** A live epoch at a stage, with current copies of its run and thread. */
  ghost predicate InCharge(s: State, k: (string, int)) {
    && k in s.epochs && s.epochs[k].pc.At? && !s.epochs[k].lost && Grounded(s.st, k.0)
    && s.epochs[k].pc.run.version == s.st.runs[k.0].version
    && s.epochs[k].pc.thread.version == s.st.threads[s.st.runs[k.0].thread].version
  }

  /** What the run ends as, if the choice ends it here. */
  function Outcome(at: Stage, end: Choice): (o: Option<RunStatus>) {
    match end
    case Go => if at == Reviewing then Some(RunCompleted) else None
    case FailRun =>
      if at in {Planning, Executing, Integrating, Verifying, Reviewing} then Some(RunFailed) else None
    case CancelRun =>
      if at in {Planning, Planned, Executing, Integrating, Verifying, Reviewing} then Some(RunCancelled) else None
    case _ => None
  }

  /** Where the thread of the run ends. */
  function ThreadEnd(at: Stage, outcome: RunStatus, passed: bool): (t: ThreadStatus) {
    match outcome
    case RunCompleted => if passed then ThreadReadyForReview else ThreadFailed
    case RunFailed => ThreadFailed
    case _ =>
      if at == Planning then ThreadAwaitingInput
      else if at == Reviewing then ThreadReviewing else ThreadNeedsAttention
  }

  /** A thread history after a thread went from one status to another, or stayed. */
  function Routed(log: seq<ThreadStatus>, from: ThreadStatus, to: ThreadStatus): (after: seq<ThreadStatus>) {
    if from == to then log else log + [to]
  }

  /** Copies at the stored versions are what is stored. */
  lemma CopiesAreCurrent(s: State, k: (string, int), max: int)
    requires Inv(s, max) && InCharge(s, k)
    ensures var pc := s.epochs[k].pc;
            && pc.run == s.st.runs[k.0] && pc.thread == s.st.threads[s.st.runs[k.0].thread]
            && pc.run.status == StageRun(pc.stage) && !Terminal(pc.run.status)
            && (pc.stage != Loaded ==> pc.thread.status == StageThread(pc.stage))
            && s.st.runLog[k.0] != [] && s.st.events[k.0] == s.st.runLog[k.0][1..]
  {
    hide StoreOk, RunOk, ThreadOk;
    assert EpochOk(s.st, k, s.epochs[k]);
    InvStore(s, max);
    CurrentRun(s.st, k.0, s.epochs[k].pc.run);
    CurrentThread(s.st, s.st.runs[k.0].thread, s.epochs[k].pc.thread);
  }

  lemma CurrentRun(st: Store, r: string, copy: Run)
    requires StoreOk(st) && Grounded(st, r) && RunCopy(st, r, copy) && copy.version == st.runs[r].version
    ensures copy == st.runs[r] && st.runLog[r] != []
    ensures !Terminal(copy.status) ==> st.events[r] == st.runLog[r][1..]
  {
    hide StoreOk;
    StoreRun(st, r);
  }

  lemma CurrentThread(st: Store, t: string, copy: Thread)
    requires StoreOk(st) && t in st.threads && t in st.threadLog && ThreadCopy(st, t, copy)
    requires copy.version == st.threads[t].version
    ensures copy == st.threads[t]
  {
    hide StoreOk;
    StoreThread(st, t);
  }

  lemma StoreThread(st: Store, t: string)
    requires StoreOk(st) && t in st.threads
    ensures ThreadOk(st, t)
  {
  }

  lemma EndIsLegal(at: Stage, end: Choice)
    requires Outcome(at, end).Some?
    ensures CanTransitionRun(StageRun(at), Outcome(at, end).value) && at != Loaded
  {
    TerminalIsAbsorbing(StageRun(at));
    assert RunEdges(RunReporting)[0] == RunCompleted;
  }

  lemma OutcomeStep(s: State, k: (string, int), end: Choice, max: int)
    requires Inv(s, max) && InCharge(s, k) && Outcome(s.epochs[k].pc.stage, end).Some?
    ensures var e := s.epochs[k];
            var t, o := Next(s, Step(k, end), max), Outcome(e.pc.stage, end).value;
            && Finished(s.st, t.st, k.0, o) && t.st.events[k.0] == s.st.events[k.0]
            && t.st.threads == s.st.threads && t.st.threadLog == s.st.threadLog
            && k in t.epochs && t.epochs[k] == e.(pc := Emitting(o, e.pc.thread))
  {
    hide Next, Inv, ReadStep, ClaimStep, RouteStep, EmitStep, WriteRun, CanTransitionRun, Finished;
    CopiesAreCurrent(s, k, max);
    EndIsLegal(s.epochs[k].pc.stage, end);
    StepAs(s, k, end, max);
    OutcomeIsWritten(s.st, k.0, s.epochs[k].pc.run, Outcome(s.epochs[k].pc.stage, end).value, false);
  }

  /** Where Execute routes the thread is a legal move to its end. */
  lemma RouteIsLegal(at: Stage, end: Choice, passed: bool)
    requires Outcome(at, end).Some?
    ensures var o, from := Outcome(at, end).value, StageThread(at);
            var next := RouteAfter(o, from, passed);
            && (next.Some? ==> CanTransitionThread(from, next.value))
            && (if next.Some? then next.value else from) == ThreadEnd(at, o, passed)
            && (next.Some? <==> ThreadEnd(at, o, passed) != from)
  {
    assert ThreadEdges(ThreadPlanning)[0] == ThreadAwaitingInput && ThreadEdges(ThreadPlanning)[2] == ThreadFailed;
    assert ThreadEdges(ThreadReadyToExecute)[1] == ThreadNeedsAttention;
    assert ThreadEdges(ThreadExecuting)[1] == ThreadNeedsAttention && ThreadEdges(ThreadExecuting)[3] == ThreadFailed;
    assert ThreadEdges(ThreadReviewing)[1] == ThreadReadyForReview && ThreadEdges(ThreadReviewing)[2] == ThreadFailed;
  }

  lemma ThreadStep(s: State, k: (string, int), at: Stage, end: Choice, passed: bool, max: int)
    requires k in s.epochs && Grounded(s.st, k.0) && Outcome(at, end).Some?
    requires var t := s.st.threads[s.st.runs[k.0].thread];
             t.status == StageThread(at) && s.epochs[k].pc == Routing(Outcome(at, end).value, t)
    ensures var u := Next(s, Step(k, if passed then Go else Blocked), max);
            && Grounded(u.st, k.0) && u.st.runs == s.st.runs && u.st.runLog == s.st.runLog
            && u.st.events == s.st.events
            && u.st.threads[u.st.runs[k.0].thread].status == ThreadEnd(at, Outcome(at, end).value, passed)
            && u.st.threadLog[u.st.runs[k.0].thread] ==
                 Routed(s.st.threadLog[u.st.runs[k.0].thread], StageThread(at),
                        ThreadEnd(at, Outcome(at, end).value, passed))
            && k in u.epochs && u.epochs[k] == s.epochs[k].(pc := Disposing)
  {
    hide Next, RouteStep, StageStep, ReadStep, ClaimStep, RunStep, EmitStep, RouteAfter, CanTransitionThread;
    var c := if passed then Go else Blocked;
    var o, copy := Outcome(at, end).value, s.epochs[k].pc.thread;
    StepAs(s, k, c, max);
    RouteIsLegal(at, end, passed);
    ThreadIsRouted(s.st, k.0, copy, RouteAfter(o, copy.status, passed), Disposing, Disposing);
  }

  /** What is left of a run that ended at a stage. */
  ghost predicate Ended(s: State, t: State, k: (string, int), at: Stage, o: RunStatus, passed: bool) {
    && Finished(s.st, t.st, k.0, o) && t.st.events[k.0] == t.st.runLog[k.0][1..]
    && k.0 !in t.st.claims
    && var thread := t.st.runs[k.0].thread;
       && t.st.threads[thread].status == ThreadEnd(at, o, passed)
       && thread in s.st.threadLog
       && t.st.threadLog[thread] == Routed(s.st.threadLog[thread], StageThread(at), ThreadEnd(at, o, passed))
  }

  function EndChoices(end: Choice, passed: bool): (cs: seq<Choice>) {
    [end, Go, if passed then Go else Blocked, Go, Go, Go]
  }

  /** In every reached state, an undisturbed epoch that completes, fails or cancels its run leaves it
      with that outcome, every status of its history announced, its claim gone and its thread where
      the outcome sends it: ready for review if it passed, failed if it was blocked or failed, back
      to the human if it was cancelled before review. */
  lemma UndisturbedEnd(clock: int, acts: seq<Action>, max: int, k: (string, int), end: Choice, passed: bool)
    requires var s := Reached(clock, acts, max);
             InCharge(s, k) && Outcome(s.epochs[k].pc.stage, end).Some?
    ensures var s := Reached(clock, acts, max);
            var at := s.epochs[k].pc.stage;
            Ended(s, Alone(s, k, EndChoices(end, passed), max), k, at, Outcome(at, end).value, passed)
  {
    hide Next, Inv, Alone, Outcome, Ended;
    ReachedInv(clock, acts, max);
    EndFrom(Reached(clock, acts, max), k, end, passed, max);
  }

  lemma EndFrom(s: State, k: (string, int), end: Choice, passed: bool, max: int)
    requires Inv(s, max) && InCharge(s, k) && Outcome(s.epochs[k].pc.stage, end).Some?
    ensures var at := s.epochs[k].pc.stage;
            Ended(s, Alone(s, k, EndChoices(end, passed), max), k, at, Outcome(at, end).value, passed)
  {
    hide Next, Inv, Finished, Alone, ThreadEnd, Outcome;
    var c := if passed then Go else Blocked;
    FinishedAndRouted(s, k, end, passed, max);
    var s3 := Alone(s, k, [end, Go, c], max);
    ClaimIsGivenUp(s3, k, max);
    AloneConcat(s, k, [end, Go, c], [Go, Go, Go], max);
    assert [end, Go, c] + [Go, Go, Go] == EndChoices(end, passed);
    SameRunFinished(s.st, s3.st, Alone(s3, k, [Go, Go, Go], max).st, k.0, Outcome(s.epochs[k].pc.stage, end).value);
  }

  /** The first three steps: outcome, event, thread. */
  lemma FinishedAndRouted(s: State, k: (string, int), end: Choice, passed: bool, max: int)
    requires Inv(s, max) && InCharge(s, k) && Outcome(s.epochs[k].pc.stage, end).Some?
    ensures var at := s.epochs[k].pc.stage;
            var o, t := Outcome(at, end).value, Alone(s, k, [end, Go, if passed then Go else Blocked], max);
            var thread := s.st.runs[k.0].thread;
            && Finished(s.st, t.st, k.0, o) && Grounded(t.st, k.0) && t.st.events[k.0] == t.st.runLog[k.0][1..]
            && t.st.runs[k.0].thread == thread && Terminal(t.st.runs[k.0].status)
            && t.st.threads[thread].status == ThreadEnd(at, o, passed)
            && t.st.threadLog[thread] == Routed(s.st.threadLog[thread], StageThread(at), ThreadEnd(at, o, passed))
            && k in t.epochs && t.epochs[k] == s.epochs[k].(pc := Disposing)
  {
    hide Next, Inv, Finished, Alone, ThreadEnd, Routed, StageThread, StageRun, Outcome;
    var at := s.epochs[k].pc.stage;
    var o, c := Outcome(at, end).value, if passed then Go else Blocked;
    FinishedAndAnnounced(s, k, end, max);
    var s2 := Next(Next(s, Step(k, end), max), Step(k, Go), max);
    ThreadStep(s2, k, at, end, passed, max);
    ThreeChoices(s, k, end, Go, c, max);
    SameRunFinished(s.st, s2.st, Next(s2, Step(k, c), max).st, k.0, o);
  }

  lemma FinishedAndAnnounced(s: State, k: (string, int), end: Choice, max: int)
    requires Inv(s, max) && InCharge(s, k) && Outcome(s.epochs[k].pc.stage, end).Some?
    ensures var at := s.epochs[k].pc.stage;
            var o, t := Outcome(at, end).value, Next(Next(s, Step(k, end), max), Step(k, Go), max);
            && Finished(s.st, t.st, k.0, o) && Grounded(t.st, k.0) && t.st.runs[k.0].thread == s.st.runs[k.0].thread
            && Terminal(t.st.runs[k.0].status)
            && t.st.events[k.0] == t.st.runLog[k.0][1..] && t.st.threadLog == s.st.threadLog
            && t.st.threads[s.st.runs[k.0].thread].status == StageThread(at)
            && k in t.epochs
            && t.epochs[k] == s.epochs[k].(pc := Routing(o, t.st.threads[s.st.runs[k.0].thread]))
  {
    hide Next, Inv, Finished, StageThread, StageRun, Terminal;
    var at := s.epochs[k].pc.stage;
    var o := Outcome(at, end).value;
    CopiesAreCurrent(s, k, max);
    EndIsLegal(at, end);
    OutcomeStep(s, k, end, max);
    var s1 := Next(s, Step(k, end), max);
    FinishedRun(s.st, s1.st, k.0, o);
    EventIsEmitted(s1, k, max);
    SameRunFinished(s.st, s1.st, Next(s1, Step(k, Go), max).st, k.0, o);
    assert (s.st.runLog[k.0] + [o])[1..] == s.st.runLog[k.0][1..] + [o];
  }

  /** If the event of the outcome is lost, it alone is missing. A cancelled run's thread still goes where
      it would have gone; otherwise the thread stays where it was, and the claim can be given up. */
  lemma LostEventEnd(clock: int, acts: seq<Action>, max: int, k: (string, int), end: Choice)
    requires var s := Reached(clock, acts, max);
             InCharge(s, k) && Outcome(s.epochs[k].pc.stage, end).Some?
    ensures var s := Reached(clock, acts, max);
            var at := s.epochs[k].pc.stage;
            var o, t := Outcome(at, end).value, Alone(s, k, [end, Fault, Go], max);
            && Finished(s.st, t.st, k.0, o) && s.st.runLog[k.0] != [] && t.st.events[k.0] == s.st.runLog[k.0][1..]
            && t.st.threads[t.st.runs[k.0].thread].status ==
                 (if o == RunCancelled then ThreadEnd(at, o, true) else StageThread(at))
            && k in t.epochs
            && t.epochs[k].pc == if o == RunCancelled then Disposing else if s.epochs[k].lost then Done else Completing
  {
    hide Next, Inv, Finished, Alone, ThreadEnd, Reached, Routed, StageRun;
    var s := Reached(clock, acts, max);
    ReachedInv(clock, acts, max);
    var at := s.epochs[k].pc.stage;
    var o := Outcome(at, end).value;
    CopiesAreCurrent(s, k, max);
    EndIsLegal(at, end);
    OutcomeStep(s, k, end, max);
    var s1 := Next(s, Step(k, end), max);
    FinishedRun(s.st, s1.st, k.0, o);
    EventIsLost(s1, k, max);
    var s2 := Next(s1, Step(k, Fault), max);
    if o == RunCancelled {
      ThreadStep(s2, k, at, end, true, max);
    } else {
      ReloadIs(s2, k, max);
    }
    ThreeChoices(s, k, end, Fault, Go, max);
    SameRunFinished(s.st, s1.st, Next(s2, Step(k, Go), max).st, k.0, o);
  }

  /** Reloading after Execute only reads: an epoch that lost its lease touches nothing more, one whose
      run is finished completes its claim, any other one releases it. */
  lemma ReloadIs(s: State, k: (string, int), max: int)
    requires k in s.epochs && s.epochs[k].pc == Disposing && Grounded(s.st, k.0)
    ensures var t, e := Next(s, Step(k, Go), max), s.epochs[k];
            && t.st == s.st && k in t.epochs
            && t.epochs[k] == e.(pc := if e.lost then Done
                                       else if Terminal(s.st.runs[k.0].status) then Completing else Releasing)
  {
    hide Next, StageStep, EmitStep, RunStep, RouteStep, ClaimStep;
    StepAs(s, k, Go, max);
  }

  /** In every reached state, an undisturbed epoch that holds its claim and returns from Execute with its
      run unfinished hands the claim back: anybody can acquire it at once, and run, thread and events
      are as they were. */
  lemma UndisturbedReturn(clock: int, acts: seq<Action>, max: int, k: (string, int), back: Choice,
                          owner: string, token: string, lease: int)
    requires var s := Reached(clock, acts, max);
             && InCharge(s, k) && (back == Return || back == Fault)
             && k.0 in s.st.claims && Matches(s.st.claims[k.0], Credential(k, s.epochs[k]))
             && ValidRef(Credential(k, s.epochs[k]))
    requires ValidOwner(owner) && lease > 0
    ensures var s := Reached(clock, acts, max);
            var t := Alone(s, k, [back, Go, Go], max);
            && t.st == s.st.(claims := t.st.claims) && TryComplete(t.st.claims, Credential(k, s.epochs[k])).Err?
            && TryAcquire(t.st.claims, k.0, owner, token, t.st.clock, lease).Ok?
  {
    hide Next, Inv, Alone, Reached, ValidRef, ValidOwner, TryAcquire, TryComplete, Matches;
    var s := Reached(clock, acts, max);
    ReachedInv(clock, acts, max);
    CopiesAreCurrent(s, k, max);
    ReturnStep(s, k, back, max);
    var s1 := Next(s, Step(k, back), max);
    ReloadIs(s1, k, max);
    var s2 := Next(s1, Step(k, Go), max);
    ReleaseStep(s2, k, owner, token, lease, max);
    ThreeChoices(s, k, back, Go, Go, max);
  }

  lemma ReturnStep(s: State, k: (string, int), back: Choice, max: int)
    requires k in s.epochs && s.epochs[k].pc.At? && Grounded(s.st, k.0) && (back == Return || back == Fault)
    ensures var t := Next(s, Step(k, back), max);
            t.st == s.st && k in t.epochs && t.epochs[k] == s.epochs[k].(pc := Disposing)
  {
    hide Next, RunStep, EmitStep, RouteStep, ClaimStep, ReadStep;
    StepAs(s, k, back, max);
  }

  lemma ReleaseStep(s: State, k: (string, int), owner: string, token: string, lease: int, max: int)
    requires k in s.epochs && s.epochs[k].pc == Releasing && Grounded(s.st, k.0)
    requires k.0 in s.st.claims && Matches(s.st.claims[k.0], Credential(k, s.epochs[k]))
    requires ValidRef(Credential(k, s.epochs[k])) && ValidOwner(owner) && lease > 0
    ensures var t := Next(s, Step(k, Go), max);
            && t.st == s.st.(claims := t.st.claims) && TryComplete(t.st.claims, Credential(k, s.epochs[k])).Err?
            && TryAcquire(t.st.claims, k.0, owner, token, t.st.clock, lease).Ok?
  {
    hide Next, RunStep, EmitStep, RouteStep, StageStep, ReadStep, ValidRef, ValidOwner;
    StepAs(s, k, Go, max);
  }

  /** A choice to fail or cancel where there is no such exit does nothing. */
  lemma NoOtherEnd(s: State, k: (string, int), end: Choice, max: int)
    requires k in s.epochs && s.epochs[k].pc.At? && Grounded(s.st, k.0) && (end == FailRun || end == CancelRun)
    requires Outcome(s.epochs[k].pc.stage, end).None?
    ensures Next(s, Step(k, end), max).st == s.st && Next(s, Step(k, end), max).epochs == s.epochs
  {
    hide Next, RunStep;
    StepAs(s, k, end, max);
    SameEpochs(s, k, end, max);
  }

  lemma SameEpochs(s: State, k: (string, int), c: Choice, max: int)
    requires k in s.epochs && Grounded(s.st, k.0) && EpochStep(s.st, k, s.epochs[k], c, max).1 == s.epochs[k].pc
    ensures Next(s, Step(k, c), max).epochs == s.epochs
  {
    hide EpochStep;
  }

  lemma FinishedRun(st: Store, u: Store, r: string, outcome: RunStatus)
    requires Finished(st, u, r, outcome) && (outcome == RunCompleted || outcome == RunFailed || outcome == RunCancelled)
    ensures Grounded(st, r) && Grounded(u, r) && u.runs[r].status == outcome && Terminal(outcome)
    ensures u.runs[r].thread == st.runs[r].thread && u.runLog[r] == st.runLog[r] + [outcome]
  {
  }

  lemma SameRunFinished(st: Store, u: Store, v: Store, r: string, outcome: RunStatus)
    requires Finished(st, u, r, outcome) && Grounded(v, r) && v.runs == u.runs && v.runLog == u.runLog
    ensures Finished(st, v, r, outcome)
  {
  }

  // ----- the whole of Execute

  ghost predicate AtStage(s: State, k: (string, int), at: Stage, log: seq<RunStatus>, threadLog: seq<ThreadStatus>) {
    && InCharge(s, k) && s.epochs[k].pc.stage == at
    && s.st.runLog[k.0] == log && s.st.threadLog[s.st.runs[k.0].thread] == threadLog
  }

  /** One step forward of the run, or of the thread. */
  lemma RunAdvances(s: State, k: (string, int), at: Stage, status: RunStatus, next: Stage, log: seq<RunStatus>,
                    threadLog: seq<ThreadStatus>, max: int)
    requires Inv(s, max) && AtStage(s, k, at, log, threadLog) && Forward(at) == MoveRun(status, next)
    ensures Inv(Next(s, Step(k, Go), max), max)
    ensures AtStage(Next(s, Step(k, Go), max), k, next, log + [status], threadLog)
    ensures SameThread(s, Next(s, Step(k, Go), max), k.0)
  {
    hide Next, Inv, ReadStep, ClaimStep, RouteStep, EmitStep, CanTransitionRun, StageRun, StageThread;
    NextKeeps(s, Step(k, Go), max);
    CopiesAreCurrent(s, k, max);
    StageMovesAreLegal(s.epochs[k].pc);
    StepAs(s, k, Go, max);
  }

  lemma ThreadAdvances(s: State, k: (string, int), at: Stage, status: ThreadStatus, next: Stage, log: seq<RunStatus>,
                       threadLog: seq<ThreadStatus>, max: int)
    requires Inv(s, max) && AtStage(s, k, at, log, threadLog) && Forward(at) == MoveThread(status, next)
    ensures Inv(Next(s, Step(k, Go), max), max)
    ensures AtStage(Next(s, Step(k, Go), max), k, next, log, threadLog + [status])
    ensures SameThread(s, Next(s, Step(k, Go), max), k.0)
  {
    hide Next, Inv, ReadStep, ClaimStep, RouteStep, EmitStep, CanTransitionThread, StageRun, StageThread;
    NextKeeps(s, Step(k, Go), max);
    CopiesAreCurrent(s, k, max);
    StageMovesAreLegal(s.epochs[k].pc);
    StepAs(s, k, Go, max);
  }

  ghost predicate SameThread(s: State, t: State, r: string) {
    r in s.st.runs && r in t.st.runs && t.st.runs[r].thread == s.st.runs[r].thread
  }

  /** From planning to executing. */
  lemma FirstHalf(s: State, k: (string, int), log: seq<ThreadStatus>, max: int)
    requires Inv(s, max) && AtStage(s, k, Loaded, [RunPending], log)
    ensures var t := Alone(s, k, [Go, Go, Go, Go], max);
            && Inv(t, max) && SameThread(s, t, k.0)
            && AtStage(t, k, Executing, [RunPending, RunPlanning, RunExecuting],
                       log + [ThreadReadyToExecute, ThreadExecuting])
  {
    hide Next, Inv, AtStage, Alone;
    var a := Next(s, Step(k, Go), max);
    RunAdvances(s, k, Loaded, RunPlanning, Planning, [RunPending], log, max);
    var b := Next(a, Step(k, Go), max);
    ThreadAdvances(a, k, Planning, ThreadReadyToExecute, Planned, [RunPending] + [RunPlanning], log, max);
    var c := Next(b, Step(k, Go), max);
    ThreadAdvances(b, k, Planned, ThreadExecuting, Started, [RunPending] + [RunPlanning], log + [ThreadReadyToExecute],
                   max);
    RunAdvances(c, k, Started, RunExecuting, Executing, [RunPending] + [RunPlanning],
                log + [ThreadReadyToExecute] + [ThreadExecuting], max);
    FourChoices(s, k, max);
    assert [RunPending] + [RunPlanning] + [RunExecuting] == [RunPending, RunPlanning, RunExecuting];
    assert log + [ThreadReadyToExecute] + [ThreadExecuting] == log + [ThreadReadyToExecute, ThreadExecuting];
  }

  /** From executing to review. */
  lemma SecondHalf(s: State, k: (string, int), log: seq<RunStatus>, threadLog: seq<ThreadStatus>, max: int)
    requires Inv(s, max) && AtStage(s, k, Executing, log, threadLog)
    ensures var t := Alone(s, k, [Go, Go, Go, Go], max);
            && Inv(t, max) && SameThread(s, t, k.0)
            && AtStage(t, k, Reviewing, log + [RunIntegrating, RunVerifying, RunReporting],
                       threadLog + [ThreadReviewing])
  {
    hide Next, Inv, AtStage, Alone;
    var a := Next(s, Step(k, Go), max);
    RunAdvances(s, k, Executing, RunIntegrating, Integrating, log, threadLog, max);
    var b := Next(a, Step(k, Go), max);
    RunAdvances(a, k, Integrating, RunVerifying, Verifying, log + [RunIntegrating], threadLog, max);
    var c := Next(b, Step(k, Go), max);
    RunAdvances(b, k, Verifying, RunReporting, Reporting, log + [RunIntegrating] + [RunVerifying], threadLog, max);
    ThreadAdvances(c, k, Reporting, ThreadReviewing, Reviewing,
                   log + [RunIntegrating] + [RunVerifying] + [RunReporting], threadLog, max);
    FourChoices(s, k, max);
    assert log + [RunIntegrating] + [RunVerifying] + [RunReporting] ==
           log + [RunIntegrating, RunVerifying, RunReporting];
  }

  lemma FourChoices(s: State, k: (string, int), max: int)
    ensures Alone(s, k, [Go, Go, Go, Go], max) ==
              Next(Next(Next(Next(s, Step(k, Go), max), Step(k, Go), max), Step(k, Go), max), Step(k, Go), max)
  {
    hide Next;
    assert [Go, Go, Go, Go][1..] == [Go, Go, Go];
    assert Alone(s, k, [Go, Go, Go, Go], max) == Alone(Next(s, Step(k, Go), max), k, [Go, Go, Go], max);
    ThreeChoices(Next(s, Step(k, Go), max), k, Go, Go, Go, max);
  }

  /** Dispatching a pending run within its budget, and loading it with its thread. */
  lemma LoadedToExecute(s: State, k: (string, int), max: int)
    requires Inv(s, max) && k in s.epochs && s.epochs[k].pc == Dispatching && !s.epochs[k].lost
    requires Grounded(s.st, k.0) && s.st.runs[k.0].status == RunPending && k.1 <= max
    ensures var t := Alone(s, k, [Go, Go, Go], max);
            && t.st == s.st && Inv(t, max)
            && AtStage(t, k, Loaded, [RunPending], s.st.threadLog[s.st.runs[k.0].thread])
  {
    hide Next, Inv, StageStep, EmitStep, ClaimStep, RouteStep, RunStep, Alone;
    DispatchedEpoch(s, k, max);
    var s1 := Next(s, Step(k, Go), max);
    StepAs(s, k, Go, max);
    var s2 := Next(s1, Step(k, Go), max);
    StepAs(s1, k, Go, max);
    StepAs(s2, k, Go, max);
    ThreeChoices(s, k, Go, Go, Go, max);
    LoadedInv(s, k, max);
    PendingLog(s, k.0, max);
  }

  lemma PendingLog(s: State, r: string, max: int)
    requires Inv(s, max) && r in s.st.runs && s.st.runs[r].status == RunPending
    ensures r in s.st.runLog && s.st.runLog[r] == [RunPending]
  {
    hide StoreOk;
    InvStore(s, max);
    StoreRun(s.st, r);
    if s.st.runs[r].version >= 2 {
      WrittenIsNotPending(s.st, r);
    }
  }

  /** The choices of an execution that nothing interrupts. */
  function ExecuteChoices(passed: bool): (cs: seq<Choice>) {
    [Go, Go, Go] + ([Go, Go, Go, Go] + ([Go, Go, Go, Go] + EndChoices(Go, passed)))
  }

  /** In every reached state, an undisturbed epoch that has just acquired a pending run within its
      budget takes it through the whole pipeline: the run's history is exactly planning, executing,
      integrating, verifying, reporting and completed, all announced, the thread goes through ready
      to execute, executing and reviewing to ready for review, or to failed if the review blocks,
      and the claim is gone. */
  lemma UndisturbedExecute(clock: int, acts: seq<Action>, max: int, k: (string, int), passed: bool)
    requires var s := Reached(clock, acts, max);
             && k in s.epochs && s.epochs[k].pc == Dispatching && !s.epochs[k].lost && k.1 <= max
             && k.0 in s.st.runs && s.st.runs[k.0].status == RunPending
    ensures var s := Reached(clock, acts, max);
            var t := Alone(s, k, ExecuteChoices(passed), max);
            && Grounded(s.st, k.0) && Grounded(t.st, k.0) && SameThread(s, t, k.0) && k.0 !in t.st.claims
            && t.st.runLog[k.0] == [RunPending, RunPlanning, RunExecuting, RunIntegrating, RunVerifying, RunReporting,
                                    RunCompleted]
            && t.st.events[k.0] == t.st.runLog[k.0][1..] && t.st.runs[k.0].status == RunCompleted
            && t.st.threadLog[s.st.runs[k.0].thread] == s.st.threadLog[s.st.runs[k.0].thread] +
                 [ThreadReadyToExecute, ThreadExecuting, ThreadReviewing,
                  if passed then ThreadReadyForReview else ThreadFailed]
  {
    hide Next, Inv, Alone, Reached, AtStage;
    var s := Reached(clock, acts, max);
    ReachedInv(clock, acts, max);
    DispatchedEpoch(s, k, max);
    LoadedToExecute(s, k, max);
    var log := s.st.threadLog[s.st.runs[k.0].thread];
    var a := Alone(s, k, [Go, Go, Go], max);
    FirstHalf(a, k, log, max);
    var b := Alone(a, k, [Go, Go, Go, Go], max);
    SecondHalf(b, k, [RunPending, RunPlanning, RunExecuting], log + [ThreadReadyToExecute, ThreadExecuting], max);
    var c := Alone(b, k, [Go, Go, Go, Go], max);
    ReviewEnds(c, k, log + [ThreadReadyToExecute, ThreadExecuting] + [ThreadReviewing], passed, max);
    AloneConcat(b, k, [Go, Go, Go, Go], EndChoices(Go, passed), max);
    AloneConcat(a, k, [Go, Go, Go, Go], [Go, Go, Go, Go] + EndChoices(Go, passed), max);
    AloneConcat(s, k, [Go, Go, Go], [Go, Go, Go, Go] + ([Go, Go, Go, Go] + EndChoices(Go, passed)), max);
  }

  lemma ReviewEnds(s: State, k: (string, int), threadLog: seq<ThreadStatus>, passed: bool, max: int)
    requires Inv(s, max)
    requires AtStage(s, k, Reviewing,
                     [RunPending, RunPlanning, RunExecuting] + [RunIntegrating, RunVerifying, RunReporting],
                     threadLog)
    ensures var t := Alone(s, k, EndChoices(Go, passed), max);
            && Grounded(t.st, k.0) && k.0 !in t.st.claims && SameThread(s, t, k.0)
            && t.st.runLog[k.0] == [RunPending, RunPlanning, RunExecuting, RunIntegrating, RunVerifying, RunReporting,
                                    RunCompleted]
            && t.st.events[k.0] == t.st.runLog[k.0][1..] && t.st.runs[k.0].status == RunCompleted
            && t.st.threadLog[s.st.runs[k.0].thread] ==
                 threadLog + [if passed then ThreadReadyForReview else ThreadFailed]
  {
    hide Next, Inv, Alone;
    EndFrom(s, k, Go, passed, max);
    var t := Alone(s, k, EndChoices(Go, passed), max);
    FinishedRun(s.st, t.st, k.0, RunCompleted);
  }

  // ----- the end of a convergence

  /** What convergence makes of a run, and of its thread. */
  function Converged(run: RunStatus): (o: RunStatus) {
    if run == RunPending then RunCancelled else RunFailed
  }

  function ThreadConverged(run: RunStatus, thread: ThreadStatus): (t: ThreadStatus) {
    if run == RunPending then ThreadAwaitingInput
    else if thread == ThreadReadyToExecute then ThreadNeedsAttention else ThreadFailed
  }

  /** Dispatching, loading run and thread. */
  lemma LoadedToConverge(s: State, k: (string, int), max: int)
    requires k in s.epochs && s.epochs[k].pc == Dispatching && s.epochs[k].attempts == k.1
    requires Grounded(s.st, k.0) && !Terminal(s.st.runs[k.0].status)
    requires s.st.runs[k.0].status == RunPending ==> k.1 > max
    ensures var t, run := Alone(s, k, [Go, Go, Go], max), s.st.runs[k.0];
            t.st == s.st && k in t.epochs &&
            t.epochs[k] == s.epochs[k].(pc := ConvergeReady(run, s.st.threads[run.thread]))
  {
    hide Next, StageStep, EmitStep, ClaimStep, RouteStep, RunStep, Alone;
    var s1 := Next(s, Step(k, Go), max);
    StepAs(s, k, Go, max);
    var s2 := Next(s1, Step(k, Go), max);
    StepAs(s1, k, Go, max);
    StepAs(s2, k, Go, max);
    ThreeChoices(s, k, Go, Go, Go, max);
  }

  lemma ConvergenceIsLegal(run: RunStatus, thread: ThreadStatus)
    requires !Terminal(run) && Working(thread) && (run == RunPending ==> thread == ThreadPlanning)
    ensures CanTransitionRun(run, Converged(run)) && Convergence(run) == Converged(run)
    ensures var next := RouteConverged(Converged(run), thread);
            next == Some(ThreadConverged(run, thread)) && CanTransitionThread(thread, next.value)
  {
    TerminalIsAbsorbing(run);
    assert ThreadEdges(ThreadPlanning)[0] == ThreadAwaitingInput && ThreadEdges(ThreadPlanning)[2] == ThreadFailed;
    assert ThreadEdges(ThreadReadyToExecute)[1] == ThreadNeedsAttention;
    assert ThreadEdges(ThreadExecuting)[3] == ThreadFailed && ThreadEdges(ThreadReviewing)[2] == ThreadFailed;
  }

  lemma ConvergenceIsWritten(s: State, k: (string, int), max: int)
    requires k in s.epochs && Grounded(s.st, k.0) && !Terminal(s.st.runs[k.0].status)
    requires var run := s.st.runs[k.0];
             var thread := s.st.threads[run.thread];
             && Working(thread.status) && (run.status == RunPending ==> thread.status == ThreadPlanning)
             && s.epochs[k].pc == ConvergeReady(run, thread)
    ensures var t, run := Next(s, Step(k, Go), max), s.st.runs[k.0];
            && Finished(s.st, t.st, k.0, Converged(run.status))
            && t.st.events[k.0] == s.st.events[k.0] + [Converged(run.status)] && t.st.threads == s.st.threads
            && k in t.epochs
            && t.epochs[k] == s.epochs[k].(pc := ConvergeRouting(Converged(run.status), s.st.threads[run.thread]))
  {
    hide Next, StageStep, EmitStep, ClaimStep, RouteStep, ReadStep, WriteRun, CanTransitionRun, Finished, Convergence;
    var run := s.st.runs[k.0];
    StepAs(s, k, Go, max);
    ConvergenceIsLegal(run.status, s.st.threads[run.thread].status);
    OutcomeIsWritten(s.st, k.0, run, Converged(run.status), true);
  }

  lemma ConvergenceIsRouted(s: State, k: (string, int), run: RunStatus, max: int)
    requires k in s.epochs && Grounded(s.st, k.0) && !Terminal(run)
    requires var thread := s.st.threads[s.st.runs[k.0].thread];
             && Working(thread.status) && (run == RunPending ==> thread.status == ThreadPlanning)
             && s.epochs[k].pc == ConvergeRouting(Converged(run), thread)
    ensures var t, thread := Next(s, Step(k, Go), max), s.st.threads[s.st.runs[k.0].thread];
            && Grounded(t.st, k.0) && t.st.runs == s.st.runs && t.st.runLog == s.st.runLog
            && t.st.events == s.st.events
            && t.st.threads[t.st.runs[k.0].thread].status == ThreadConverged(run, thread.status)
            && k in t.epochs && t.epochs[k] == s.epochs[k].(pc := Cleaning)
  {
    hide Next, RouteStep, StageStep, ReadStep, ClaimStep, RunStep, EmitStep, RouteConverged, CanTransitionThread;
    var copy := s.st.threads[s.st.runs[k.0].thread];
    StepAs(s, k, Go, max);
    ConvergenceIsLegal(run, copy.status);
    ThreadIsRouted(s.st, k.0, copy, RouteConverged(Converged(run), copy.status), Cleaning, Done);
  }

  lemma ClaimIsCleaned(s: State, k: (string, int), max: int)
    requires k in s.epochs && s.epochs[k].pc == Cleaning && Grounded(s.st, k.0) && Terminal(s.st.runs[k.0].status)
    ensures var t := Next(s, Step(k, Go), max);
            t.st == s.st.(claims := s.st.claims - {k.0}) && k in t.epochs && t.epochs[k] == s.epochs[k].(pc := Done)
  {
    hide Next, StageStep, EmitStep, RunStep, RouteStep, ReadStep;
    StepAs(s, k, Go, max);
  }

  /** Writing the outcome with its event, routing the thread, deleting the claim. */
  lemma ReadyConverges(s: State, k: (string, int), max: int)
    requires Inv(s, max) && k in s.epochs && Grounded(s.st, k.0) && !Terminal(s.st.runs[k.0].status)
    requires s.epochs[k].pc == ConvergeReady(s.st.runs[k.0], s.st.threads[s.st.runs[k.0].thread])
    ensures var t, run := Alone(s, k, [Go, Go, Go], max), s.st.runs[k.0];
            && Finished(s.st, t.st, k.0, Converged(run.status)) && t.st.events[k.0] == t.st.runLog[k.0][1..]
            && k.0 !in t.st.claims
            && t.st.threads[t.st.runs[k.0].thread].status ==
                 ThreadConverged(run.status, s.st.threads[run.thread].status)
  {
    hide Next, Inv, Finished, Alone, ThreadConverged, Working, Terminal;
    var run := s.st.runs[k.0];
    var o := Converged(run.status);
    ActiveRun(s, k.0, max);
    ConvergenceIsWritten(s, k, max);
    var s1 := Next(s, Step(k, Go), max);
    FinishedRun(s.st, s1.st, k.0, o);
    ConvergenceIsRouted(s1, k, run.status, max);
    var s2 := Next(s1, Step(k, Go), max);
    ClaimIsCleaned(s2, k, max);
    ThreeChoices(s, k, Go, Go, Go, max);
    SameRunFinished(s.st, s1.st, Next(s2, Step(k, Go), max).st, k.0, o);
    assert (s.st.runLog[k.0] + [o])[1..] == s.st.runLog[k.0][1..] + [o];
  }

  lemma ActiveRun(s: State, r: string, max: int)
    requires Inv(s, max) && r in s.st.runs && Grounded(s.st, r) && !Terminal(s.st.runs[r].status)
    ensures var run := s.st.runs[r];
            var thread := s.st.threads[run.thread];
            && Working(thread.status) && (run.status == RunPending ==> thread.status == ThreadPlanning)
            && s.st.runLog[r] != [] && s.st.events[r] == s.st.runLog[r][1..]
  {
    hide StoreOk;
    InvStore(s, max);
    StoreRun(s.st, r);
  }

  /** In every reached state, an undisturbed epoch that has just acquired a claim settles a run that is
      finished, interrupted or out of budget. A finished run keeps everything and loses its claim. A
      pending one is cancelled and its thread waits for input; any other fails, and its thread fails
      with it or, if it was ready to execute, needs attention. Every status is announced. */
  lemma FaultFreeDispatchSettles(clock: int, acts: seq<Action>, max: int, k: (string, int))
    requires var s := Reached(clock, acts, max);
             && k in s.epochs && s.epochs[k].pc == Dispatching
             && k.0 in s.st.runs && (s.st.runs[k.0].status == RunPending ==> k.1 > max)
    ensures var s := Reached(clock, acts, max);
            && Grounded(s.st, k.0)
            && if Terminal(s.st.runs[k.0].status) then
                 Alone(s, k, [Go, Go], max).st == s.st.(claims := s.st.claims - {k.0})
               else
                 var t, run := Alone(s, k, [Go, Go, Go, Go, Go, Go], max), s.st.runs[k.0];
                 && Finished(s.st, t.st, k.0, Converged(run.status)) && t.st.events[k.0] == t.st.runLog[k.0][1..]
                 && k.0 !in t.st.claims
                 && t.st.threads[t.st.runs[k.0].thread].status ==
                      ThreadConverged(run.status, s.st.threads[run.thread].status)
  {
    hide Next, Inv, Reached, Finished, Alone, ThreadConverged;
    var s := Reached(clock, acts, max);
    ReachedInv(clock, acts, max);
    DispatchedEpoch(s, k, max);
    if Terminal(s.st.runs[k.0].status) {
      FinishedIsCleaned(s, k, max);
    } else {
      LoadedToConverge(s, k, max);
      var s3 := Alone(s, k, [Go, Go, Go], max);
      LoadedInv(s, k, max);
      ReadyConverges(s3, k, max);
      AloneConcat(s, k, [Go, Go, Go], [Go, Go, Go], max);
      assert [Go, Go, Go] + [Go, Go, Go] == [Go, Go, Go, Go, Go, Go];
    }
  }

  lemma DispatchedEpoch(s: State, k: (string, int), max: int)
    requires Inv(s, max) && k in s.epochs
    ensures Grounded(s.st, k.0) && s.epochs[k].attempts == k.1
  {
    hide StoreOk;
    assert EpochOk(s.st, k, s.epochs[k]);
  }

  lemma LoadedInv(s: State, k: (string, int), max: int)
    requires Inv(s, max)
    ensures Inv(Alone(s, k, [Go, Go, Go], max), max)
  {
    hide Next, Inv, Alone;
    ThreeChoices(s, k, Go, Go, Go, max);
    NextKeeps(s, Step(k, Go), max);
    NextKeeps(Next(s, Step(k, Go), max), Step(k, Go), max);
    NextKeeps(Next(Next(s, Step(k, Go), max), Step(k, Go), max), Step(k, Go), max);
  }

  lemma FinishedIsCleaned(s: State, k: (string, int), max: int)
    requires k in s.epochs && s.epochs[k].pc == Dispatching && Grounded(s.st, k.0)
    requires Terminal(s.st.runs[k.0].status)
    ensures Alone(s, k, [Go, Go], max).st == s.st.(claims := s.st.claims - {k.0})
  {
    hide Next, StageStep, EmitStep, RunStep, RouteStep, ClaimStep;
    StepAs(s, k, Go, max);
    ClaimIsCleaned(Next(s, Step(k, Go), max), k, max);
    assert [Go, Go][1..] == [Go] && [Go][1..] == [];
    assert Alone(s, k, [Go, Go], max) == Alone(Next(s, Step(k, Go), max), k, [Go], max);
  }
}
