/** What the dispatch protocol does when a unit is rolled back. Units exclude each other, but
    everything done outside units goes on while one is open: reads, heartbeats, acquisitions, claim
    disposal, terminal run writes and their events. The rollback undoes all of it. */
module DispatchRollback {
  import opened Base
  import opened Lifecycle
  import opened Claims
  import opened Dispatch
  import opened DispatchInvariant
  import opened DispatchSafety
  import opened DispatchTheorems
  import opened DispatchResults

  // ----- an open unit

  /** Whether an action writes through a unit of work: starting a run, a status transition of a run
      on its way or of a thread, and the convergence of a run. Terminal writes of Execute do not. */
  ghost predicate TakesUnit(s: State, a: Action) {
    match a
    case StartCommit(id, _) => id in s.starters
    case Step(k, c) => k in s.epochs && c != Fault && PcTakesUnit(s.epochs[k].pc, c)
    case _ => false
  }

  ghost predicate PcTakesUnit(pc: Pc, c: Choice) {
    match pc
    case At(at, _, _) => c == Go && Forward(at) != Finish
    case ConvergeReady(_, _) => true
    case ConvergeRouting(outcome, thread) => RouteConverged(outcome, thread.status).Some?
    case Routing(outcome, thread) => RouteAfter(outcome, thread.status, c != Blocked).Some?
    case _ => false
  }

  /** The unit that is open: one of the protocol, or one that writes neither runs nor threads. */
  type Unit = Option<Action>

  /** The unit has written; what it wrote is not committed but can be read. */
  ghost function Written(s: State, unit: Unit, max: int): (t: State) {
    if unit.Some? then Next(s, unit.value, max) else s
  }

  predicate OwnedBy(unit: Unit, k: (string, int)) {
    unit.Some? && unit.value.Step? && unit.value.k == k
  }

  /** What can happen while the unit is open: no other unit, and its own epoch is inside it. */
  ghost predicate Alongside(s: State, unit: Unit, acts: seq<Action>, max: int)
    decreases |acts|
  {
    acts == [] ||
    (&& !TakesUnit(s, acts[0])
     && (acts[0].Step? || acts[0].Crash? ==> !OwnedBy(unit, acts[0].k))
     && Alongside(Next(s, acts[0], max), unit, acts[1..], max))
  }

  /** The collections of the store are put back; the clock and the tokens already handed out are
      not. The unit's own epoch goes on as after any failed call, the others from where they are. */
  ghost function RollBack(s: State, unit: Unit, t: State, max: int): (u: State) {
    t.(st := s.st.(clock := t.st.clock, issued := t.st.issued),
       epochs := map k | k in t.epochs ::
         if OwnedBy(unit, k) && k in s.epochs && Grounded(s.st, k.0)
         then t.epochs[k].(pc := EpochStep(s.st, k, s.epochs[k], Fault, max).1)
         else t.epochs[k])
  }

  // ----- what comes after

  /** A rolled-back acquisition gives its generation away again, so afterwards two epochs can have
      the same run and generation. older are the ones whose place in the map was taken. */
  datatype Crowd = Crowd(now: State, older: seq<((string, int), Epoch)>)

  /** An action of the protocol, or a step or heartbeat of an older epoch. */
  datatype Turn = Turn(a: Action) | OlderTurn(i: nat, a: Action)

  ghost function Displaced(s: State, t: State, a: Action): (es: seq<((string, int), Epoch)>) {
    if !a.Acquire? || a.r !in t.st.claims then [] else
      var k := (a.r, t.st.claims[a.r].generation);
      if k in s.epochs && k in t.epochs && t.epochs[k] != s.epochs[k] then [(k, s.epochs[k])] else []
  }

  ghost predicate IsOlderTurn(c: Crowd, turn: Turn) {
    && turn.OlderTurn? && turn.i < |c.older|
    && (turn.a.Step? || turn.a.Beat?) && turn.a.k == c.older[turn.i].0
  }

  /** The crowd with older epoch i back in the map. */
  ghost function Recalled(c: Crowd, i: nat): (s: State)
    requires i < |c.older|
  {
    c.now.(epochs := c.now.epochs[c.older[i].0 := c.older[i].1])
  }

  ghost function Play(c: Crowd, turn: Turn, max: int): (d: Crowd) {
    match turn
    case Turn(a) =>
      var t := Next(c.now, a, max);
      Crowd(t, c.older + Displaced(c.now, t, a))
    case OlderTurn(i, a) =>
      if !IsOlderTurn(c, turn) then c else
        var t := Next(Recalled(c, i), a, max);
        var k := c.older[i].0;
        if k !in t.epochs then c else Crowd(t.(epochs := c.now.epochs), c.older[i := (k, t.epochs[k])])
  }

  ghost function PlayAll(c: Crowd, turns: seq<Turn>, max: int): (d: Crowd)
    decreases |turns|
  {
    if turns == [] then c else PlayAll(Play(c, turns[0], max), turns[1..], max)
  }

  // ----- what can be lost

  /** The run is unfinished and nobody will ever pick it up. */
  ghost predicate Lost(st: Store, r: string) {
    r in st.runs && r !in st.claims && !Terminal(st.runs[r].status)
  }

  /** Epoch k has seen its run finished, while in st it is unfinished and still claimed by k. */
  ghost predicate CompletesTooEarly(st: Store, k: (string, int), e: Epoch) {
    && e.pc == Completing && k.0 in st.runs && !Terminal(st.runs[k.0].status)
    && TryComplete(st.claims, Credential(k, e)).Ok?
  }

  /** Completing the claim can do no harm. */
  ghost predicate Harmless(st: Store, k: (string, int), e: Epoch) {
    e.pc == Completing ==>
      (k.0 in st.runs && Terminal(st.runs[k.0].status)) || TryComplete(st.claims, Credential(k, e)).Err?
  }

  lemma NotLost(st: Store, r: string)
    requires StoreOk(st)
    ensures !Lost(st, r)
  {
    if r in st.runs {
      StoreRun(st, r);
    }
  }

  // ----- what every continuation keeps about one run

  ghost predicate Logged(st: Store, r: string) {
    r in st.runs ==>
      && r in st.runLog && st.runLog[r] != [] && |st.runLog[r]| == st.runs[r].version
      && st.runLog[r][|st.runLog[r]| - 1] == st.runs[r].status
  }

  /** An unfinished copy that agrees with the history of the run; of a run that does not exist, the
      copy of its creation. */
  ghost predicate Faithful(st: Store, r: string, copy: Run) {
    && !Terminal(copy.status)
    && if r in st.runs then
         r in st.runLog && 1 <= copy.version <= |st.runLog[r]| && st.runLog[r][copy.version - 1] == copy.status
       else copy.version == 1 && copy.status == RunPending
  }

  /** The copies Execute writes from. Those of a convergence, which only writes terminal statuses, do
      not matter. */
  ghost predicate PcFaithful(st: Store, r: string, pc: Pc) {
    match pc
    case RunLoaded(copy) => Faithful(st, r, copy) && copy.status == RunPending
    case At(_, copy, _) => Faithful(st, r, copy)
    case _ => true
  }

  ghost predicate EpochSteady(st: Store, k: (string, int), e: Epoch) {
    PcFaithful(st, k.0, e.pc) && e.token in st.issued
  }

  ghost predicate Steady(s: State, r: string) {
    Logged(s.st, r) && forall k :: k in s.epochs && k.0 == r ==> EpochSteady(s.st, k, s.epochs[k])
  }

  /** What one action may do to the run: its history grows, what is finished stays finished, and a
      credential handed out before that is refused stays refused. */
  ghost predicate Onward(st: Store, u: Store, r: string) {
    && st.issued <= u.issued
    && (r in st.runs ==>
          r in u.runs && r in st.runLog && r in u.runLog && st.runLog[r] <= u.runLog[r] &&
          (Terminal(st.runs[r].status) ==> Terminal(u.runs[r].status)))
    && (r !in st.runs && r in u.runs ==> r in u.runLog && u.runLog[r] == [RunPending])
    && (forall ref: Ref :: ref.run == r && ref.token in st.issued && TryComplete(st.claims, ref).Err? ==>
          TryComplete(u.claims, ref).Err?)
  }

  lemma OnwardKeepsEpoch(st: Store, u: Store, k: (string, int), e: Epoch)
    requires Onward(st, u, k.0) && EpochSteady(st, k, e)
    ensures EpochSteady(u, k, e) && (Harmless(st, k, e) ==> Harmless(u, k, e))
  {
    hide TryComplete;
    assert Credential(k, e).run == k.0 && Credential(k, e).token == e.token;
  }

  lemma SameRunOnward(st: Store, u: Store, r: string)
    requires Logged(st, r) && u.issued == st.issued
    requires (r in u.runs <==> r in st.runs) && (r in u.claims <==> r in st.claims)
    requires r in st.runs ==> u.runs[r] == st.runs[r] && r in u.runLog && u.runLog[r] == st.runLog[r]
    requires r in st.claims ==> u.claims[r] == st.claims[r]
    ensures Onward(st, u, r) && Logged(u, r) && (Lost(u, r) <==> Lost(st, r))
  {
  }

  lemma StillOnward(st: Store, r: string)
    requires Logged(st, r)
    ensures Onward(st, st, r)
  {
    SameRunOnward(st, st, r);
  }

  /** A run write: from a faithful copy, or to a terminal status from whatever copy. */
  lemma WriteOnward(st: Store, q: string, copy: Run, next: RunStatus, announce: bool, r: string)
    requires Grounded(st, q) && Logged(st, r) && WriteRun(st, q, copy, next, announce).Some?
    requires q == r ==> Terminal(next) || Faithful(st, q, copy)
    ensures var u := WriteRun(st, q, copy, next, announce).value;
            Onward(st, u, r) && Logged(u, r) && (Lost(u, r) ==> Lost(st, r))
  {
    hide Terminal, CanTransitionRun;
    if q != r {
      SameRunOnward(st, WriteRun(st, q, copy, next, announce).value, r);
    }
  }

  /** What an epoch step owes to run r. */
  ghost predicate StepOnward(st: Store, k: (string, int), res: (Store, Pc), r: string) {
    && Onward(st, res.0, r) && Logged(res.0, r) && res.0.issued == st.issued
    && (k.0 == r ==> PcFaithful(res.0, r, res.1))
    && (k.0 == r && res.1 == Completing ==> r in res.0.runs && Terminal(res.0.runs[r].status))
  }

  lemma StutterOnward(st: Store, k: (string, int), pc: Pc, r: string)
    requires Logged(st, r) && (k.0 == r ==> PcFaithful(st, r, pc) && pc != Completing)
    ensures StepOnward(st, k, (st, pc), r)
  {
  }

  /** What was just written is a faithful copy unless it is terminal. */
  lemma StoredIsFaithful(st: Store, r: string)
    requires Logged(st, r) && r in st.runs && !Terminal(st.runs[r].status)
    ensures Faithful(st, r, st.runs[r])
  {
  }

  lemma RunStepOnward(st: Store, k: (string, int), copy: Run, next: RunStatus, announce: bool, done: Pc, failed: Pc,
                      r: string)
    requires Grounded(st, k.0) && Logged(st, r) && (k.0 == r ==> Terminal(next) || Faithful(st, r, copy))
    requires done.At? ==> !Terminal(next)
    requires !done.RunLoaded? && !failed.RunLoaded? && !failed.At? && done != Completing && failed != Completing
    ensures StepOnward(st, k, RunStep(st, k.0, copy, next, announce, done, failed), r)
    ensures Lost(RunStep(st, k.0, copy, next, announce, done, failed).0, r) ==> Lost(st, r)
  {
    hide Onward, Lost, Terminal, CanTransitionRun, Faithful, Logged, WriteRun;
    StutterOnward(st, k, failed, r);
    if WriteRun(st, k.0, copy, next, announce).Some? {
      WriteOnward(st, k.0, copy, next, announce, r);
      WrittenStatus(st, k.0, copy, next, announce);
      if done.At? && k.0 == r {
        StoredIsFaithful(WriteRun(st, k.0, copy, next, announce).value, r);
      }
    }
  }

  lemma WrittenStatus(st: Store, q: string, copy: Run, next: RunStatus, announce: bool)
    requires Grounded(st, q) && WriteRun(st, q, copy, next, announce).Some?
    ensures var u := WriteRun(st, q, copy, next, announce).value;
            q in u.runs && u.runs[q].status == next && u.issued == st.issued
  {
  }

  lemma ThreadStepOnward(st: Store, k: (string, int), t: string, copy: Thread, next: ThreadStatus, pc: Pc, r: string)
    requires t in st.threads && t in st.threadLog && Logged(st, r) && WriteThread(st, t, copy, next).Some?
    requires k.0 == r ==> PcFaithful(st, r, pc) && pc != Completing
    ensures StepOnward(st, k, (WriteThread(st, t, copy, next).value, pc), r)
    ensures Lost(WriteThread(st, t, copy, next).value, r) ==> Lost(st, r)
  {
    SameRunOnward(st, WriteThread(st, t, copy, next).value, r);
  }

  lemma ThreadIsThere(st: Store, t: string, copy: Thread, next: ThreadStatus)
    requires t in st.threads && t in st.threadLog && WriteThread(st, t, copy, next).Some?
    ensures t in WriteThread(st, t, copy, next).value.threads
  {
  }

  lemma StageStepOnward(st: Store, k: (string, int), at: Stage, copy: Run, thread: Thread, c: Choice, r: string)
    requires Grounded(st, k.0) && Logged(st, r) && (k.0 == r ==> Faithful(st, r, copy))
    ensures StepOnward(st, k, StageStep(st, k.0, at, copy, thread, c), r)
    ensures Lost(StageStep(st, k.0, at, copy, thread, c).0, r) ==> Lost(st, r)
  {
    hide StepOnward, Faithful, Lost, WriteThread, RunStep;
    StutterOnward(st, k, Disposing, r);
    StutterOnward(st, k, At(at, copy, thread), r);
    RunStepOnward(st, k, copy, RunFailed, false, Emitting(RunFailed, thread), Disposing, r);
    RunStepOnward(st, k, copy, RunCancelled, false, Emitting(RunCancelled, thread), Disposing, r);
    match Forward(at) {
      case MoveRun(status, next) =>
        assert !Terminal(status);
        RunStepOnward(st, k, copy, status, true, At(next, copy, thread), Disposing, r);
      case MoveThread(status, next) =>
        var t := st.runs[k.0].thread;
        if WriteThread(st, t, thread, status).Some? {
          ThreadIsThere(st, t, thread, status);
          ThreadStepOnward(st, k, t, thread, status,
                           At(next, copy, WriteThread(st, t, thread, status).value.threads[t]), r);
        }
      case Finish => RunStepOnward(st, k, copy, RunCompleted, false, Emitting(RunCompleted, thread), Disposing, r);
    }
  }

  lemma RouteStepOnward(st: Store, k: (string, int), copy: Thread, next: Option<ThreadStatus>, done: Pc, failed: Pc,
                        r: string)
    requires Grounded(st, k.0) && Logged(st, r) && done in {Cleaning, Disposing} && failed in {Done, Disposing}
    ensures StepOnward(st, k, RouteStep(st, k.0, copy, next, done, failed), r)
    ensures Lost(RouteStep(st, k.0, copy, next, done, failed).0, r) ==> Lost(st, r)
  {
    hide StepOnward, Lost, WriteThread;
    StutterOnward(st, k, done, r);
    StutterOnward(st, k, failed, r);
    if next.Some? && WriteThread(st, st.runs[k.0].thread, copy, next.value).Some? {
      ThreadStepOnward(st, k, st.runs[k.0].thread, copy, next.value, done, r);
    }
  }

  lemma EmitStepOnward(st: Store, k: (string, int), outcome: RunStatus, thread: Thread, c: Choice, r: string)
    requires Grounded(st, k.0) && Logged(st, r)
    ensures StepOnward(st, k, EmitStep(st, k.0, outcome, thread, c), r)
    ensures Lost(EmitStep(st, k.0, outcome, thread, c).0, r) ==> Lost(st, r)
  {
    SameRunOnward(st, EmitStep(st, k.0, outcome, thread, c).0, r);
  }

  /** Disposing of a claim refuses no fewer credentials, and loses a run only by completing it. */
  lemma ClaimStepOnward(st: Store, k: (string, int), e: Epoch, c: Choice, r: string)
    requires Grounded(st, k.0) && Logged(st, r) && e.pc in {Cleaning, Completing, Releasing}
    ensures StepOnward(st, k, ClaimStep(st, k, e, c), r)
    ensures !Lost(st, r) ==>
              (Lost(ClaimStep(st, k, e, c).0, r) <==> r == k.0 && c != Fault && CompletesTooEarly(st, k, e))
  {
    hide ValidRef;
  }

  lemma ReadStepOnward(st: Store, k: (string, int), e: Epoch, c: Choice, max: int, r: string)
    requires Grounded(st, k.0) && Logged(st, r) && (k.0 == r ==> PcFaithful(st, r, e.pc))
    requires !e.pc.At?
    ensures StepOnward(st, k, (st, ReadStep(st, k.0, e, c, max)), r)
  {
    SameRunOnward(st, st, r);
    hide Onward;
  }

  /** For every epoch step from a faithful copy: the run goes onward, and it is lost exactly when the
      step completes its claim too early. */
  lemma EpochStepLosesIff(st: Store, k: (string, int), e: Epoch, c: Choice, max: int, r: string)
    requires Grounded(st, k.0) && Logged(st, r) && (k.0 == r ==> PcFaithful(st, r, e.pc))
    ensures StepOnward(st, k, EpochStep(st, k, e, c, max), r)
    ensures !Lost(st, r) ==>
              (Lost(EpochStep(st, k, e, c, max).0, r) <==> r == k.0 && c != Fault && CompletesTooEarly(st, k, e))
  {
    hide Lost, StepOnward, Faithful, Logged, ClaimStep, StageStep, RouteStep, EmitStep, ReadStep, RunStep, TryComplete;
    StutterOnward(st, k, Done, r);
    StutterOnward(st, k, Disposing, r);
    match e.pc
    case Cleaning => ClaimStepOnward(st, k, e, c, r);
    case Completing => ClaimStepOnward(st, k, e, c, r);
    case Releasing => ClaimStepOnward(st, k, e, c, r);
    case ConvergeReady(copy, thread) =>
      var outcome := Convergence(copy.status);
      RunStepOnward(st, k, copy, outcome, true, ConvergeRouting(outcome, thread), Done, r);
    case ConvergeRouting(outcome, thread) =>
      RouteStepOnward(st, k, thread, RouteConverged(outcome, thread.status), Cleaning, Done, r);
    case At(at, copy, thread) => StageStepOnward(st, k, at, copy, thread, c, r);
    case Emitting(outcome, thread) => EmitStepOnward(st, k, outcome, thread, c, r);
    case Routing(outcome, thread) =>
      RouteStepOnward(st, k, thread, RouteAfter(outcome, thread.status, c != Blocked), Disposing, Disposing, r);
    case _ => ReadStepOnward(st, k, e, c, max, r);
  }

  // ----- every turn keeps it

  lemma AcquireOnward(st: Store, q: string, owner: string, token: string, lease: int, r: string)
    requires Logged(st, r) && token !in st.issued && TryAcquire(st.claims, q, owner, token, st.clock, lease).Ok?
    ensures var u := st.(claims := TryAcquire(st.claims, q, owner, token, st.clock, lease).value,
                         issued := st.issued + {token});
            Onward(st, u, r) && Logged(u, r) && (Lost(u, r) ==> Lost(st, r))
  {
    hide ValidRef, ValidOwner, Eligible;
  }

  lemma BeatOnward(st: Store, ref: Ref, extendFor: int, r: string)
    requires Logged(st, r) && TryHeartbeat(st.claims, ref, st.clock, extendFor).Ok?
    ensures var u := st.(claims := TryHeartbeat(st.claims, ref, st.clock, extendFor).value);
            Onward(st, u, r) && Logged(u, r) && (Lost(u, r) ==> Lost(st, r))
  {
    hide ValidRef;
  }

  lemma StartOnward(st: Store, q: string, t: string, key: string, copy: Thread, r: string)
    requires Logged(st, r) && StartUnit(st, q, t, key, copy).Some?
    ensures var u := StartUnit(st, q, t, key, copy).value;
            Onward(st, u, r) && Logged(u, r) && (Lost(u, r) ==> Lost(st, r))
  {
    hide ValidRef, CanTransitionThread;
  }

  /** Actions other than epoch steps. */
  lemma OthersOnward(s: State, a: Action, max: int, r: string)
    requires Logged(s.st, r) && !a.Step?
    ensures Onward(s.st, Next(s, a, max).st, r) && Logged(Next(s, a, max).st, r)
    ensures Lost(Next(s, a, max).st, r) ==> Lost(s.st, r)
  {
    SameRunOnward(s.st, s.st, r);
    match a {
      case Acquire(q, owner, token, lease) =>
        hide Onward, Logged, Lost;
        if token !in s.st.issued && TryAcquire(s.st.claims, q, owner, token, s.st.clock, lease).Ok? {
          AcquireOnward(s.st, q, owner, token, lease, r);
        }
      case Beat(k, extendFor, _) =>
        hide Onward, Logged, Lost, TryHeartbeat;
        if k in s.epochs && TryHeartbeat(s.st.claims, Credential(k, s.epochs[k]), s.st.clock, extendFor).Ok? {
          BeatOnward(s.st, Credential(k, s.epochs[k]), extendFor, r);
        }
      case StartCommit(id, q) =>
        hide Onward, Logged, Lost, StartUnit;
        if id in s.starters {
          var w := s.starters[id];
          if StartUnit(s.st, q, w.thread, w.key, w.copy).Some? {
            StartOnward(s.st, q, w.thread, w.key, w.copy, r);
          }
        }
      case _ =>
        SameRunOnward(s.st, Next(s, a, max).st, r);
    }
  }

  /** One action of the protocol: the run goes onward, all its epochs stay steady, the harmless ones
      stay harmless, and the run is lost exactly when an epoch completes its claim too early. */
  lemma NextSteady(s: State, a: Action, max: int, r: string)
    requires Steady(s, r)
    ensures Onward(s.st, Next(s, a, max).st, r) && Steady(Next(s, a, max), r)
    ensures !Lost(s.st, r) ==>
              (Lost(Next(s, a, max).st, r) <==>
                 a.Step? && a.k in s.epochs && a.k.0 == r && a.choice != Fault && Grounded(s.st, r) &&
                 CompletesTooEarly(s.st, a.k, s.epochs[a.k]))
    ensures (forall k :: k in s.epochs && k.0 == r ==> Harmless(s.st, k, s.epochs[k])) ==>
              forall k :: k in Next(s, a, max).epochs && k.0 == r ==>
                Harmless(Next(s, a, max).st, k, Next(s, a, max).epochs[k])
  {
    var t := Next(s, a, max);
    if a.Step? && a.k in s.epochs && Grounded(s.st, a.k.0) {
      StepSteady(s, a, max, r);
    } else {
      OthersSteady(s, a, max, r);
    }
  }

  lemma StepSteady(s: State, a: Action, max: int, r: string)
    requires Steady(s, r) && a.Step? && a.k in s.epochs && Grounded(s.st, a.k.0)
    ensures var t := Next(s, a, max);
            && Onward(s.st, t.st, r) && Steady(t, r)
            && (!Lost(s.st, r) ==>
                  (Lost(t.st, r) <==>
                     a.k.0 == r && a.choice != Fault && CompletesTooEarly(s.st, a.k, s.epochs[a.k])))
            && forall k :: k in s.epochs && k.0 == r && Harmless(s.st, k, s.epochs[k]) ==>
                 k in t.epochs && Harmless(t.st, k, t.epochs[k])
  {
    hide EpochStep, Onward, Logged, PcFaithful, Lost, CompletesTooEarly, TryComplete;
    var t := Next(s, a, max);
    EpochStepLosesIff(s.st, a.k, s.epochs[a.k], a.choice, max, r);
    forall k | k in s.epochs && k.0 == r
      ensures k in t.epochs && EpochSteady(t.st, k, t.epochs[k])
      ensures Harmless(s.st, k, s.epochs[k]) ==> Harmless(t.st, k, t.epochs[k])
    {
      OnwardKeepsEpoch(s.st, t.st, k, s.epochs[k]);
    }
  }

  lemma OthersSteady(s: State, a: Action, max: int, r: string)
    requires Steady(s, r) && !(a.Step? && a.k in s.epochs && Grounded(s.st, a.k.0))
    ensures var t := Next(s, a, max);
            && Onward(s.st, t.st, r) && Steady(t, r) && (Lost(t.st, r) ==> Lost(s.st, r))
            && ((forall k :: k in s.epochs && k.0 == r ==> Harmless(s.st, k, s.epochs[k])) ==>
                  forall k :: k in t.epochs && k.0 == r ==> Harmless(t.st, k, t.epochs[k]))
  {
    hide EpochStep, Onward, Logged, Faithful, Lost, TryComplete, TryAcquire, TryHeartbeat, StartUnit;
    var t := Next(s, a, max);
    if a.Step? {
      StillOnward(s.st, r);
    } else {
      OthersOnward(s, a, max, r);
    }
    forall k | k in t.epochs && k.0 == r
      ensures EpochSteady(t.st, k, t.epochs[k])
      ensures (k in s.epochs ==> Harmless(s.st, k, s.epochs[k])) ==> Harmless(t.st, k, t.epochs[k])
    {
      if k in s.epochs {
        OnwardKeepsEpoch(s.st, t.st, k, s.epochs[k]);
      }
    }
  }

  // ----- every continuation

  ghost predicate CrowdSteady(c: Crowd, r: string) {
    && Steady(c.now, r)
    && forall i :: 0 <= i < |c.older| && c.older[i].0.0 == r ==> EpochSteady(c.now.st, c.older[i].0, c.older[i].1)
  }

  ghost predicate CrowdHarmless(c: Crowd, r: string) {
    && (forall k :: k in c.now.epochs && k.0 == r ==> Harmless(c.now.st, k, c.now.epochs[k]))
    && (forall i :: 0 <= i < |c.older| && c.older[i].0.0 == r ==> Harmless(c.now.st, c.older[i].0, c.older[i].1))
  }

  lemma TurnKeeps(c: Crowd, a: Action, max: int, r: string)
    requires CrowdSteady(c, r) && CrowdHarmless(c, r) && !Lost(c.now.st, r)
    ensures var d := Play(c, Turn(a), max); CrowdSteady(d, r) && CrowdHarmless(d, r) && !Lost(d.now.st, r)
  {
    hide Next, Onward, Logged, EpochSteady, Harmless, Lost;
    NextSteady(c.now, a, max, r);
    var t := Next(c.now, a, max);
    assert !Lost(t.st, r) by {
      if a.Step? && a.k in c.now.epochs && a.k.0 == r {
        HarmlessLosesNothing(c.now.st, a.k, c.now.epochs[a.k]);
      }
    }
    var d := Play(c, Turn(a), max);
    forall i | 0 <= i < |d.older| && d.older[i].0.0 == r
      ensures EpochSteady(t.st, d.older[i].0, d.older[i].1) && Harmless(t.st, d.older[i].0, d.older[i].1)
    {
      OnwardKeepsEpoch(c.now.st, t.st, d.older[i].0, d.older[i].1);
    }
  }

  lemma HarmlessLosesNothing(st: Store, k: (string, int), e: Epoch)
    requires Harmless(st, k, e)
    ensures !CompletesTooEarly(st, k, e)
  {
  }

  lemma OlderTurnKeeps(c: Crowd, turn: Turn, max: int, r: string)
    requires IsOlderTurn(c, turn) && CrowdSteady(c, r) && CrowdHarmless(c, r) && !Lost(c.now.st, r)
    ensures var d := Play(c, turn, max); CrowdSteady(d, r) && CrowdHarmless(d, r) && !Lost(d.now.st, r)
  {
    hide Next, Onward, Logged, EpochSteady, Harmless, Lost;
    var s, k := Recalled(c, turn.i), c.older[turn.i].0;
    NextSteady(s, turn.a, max, r);
    var t := Next(s, turn.a, max);
    assert !Lost(t.st, r) by {
      if turn.a.Step? && k.0 == r {
        HarmlessLosesNothing(s.st, k, s.epochs[k]);
      }
    }
    forall j | j in c.now.epochs && j.0 == r
      ensures EpochSteady(t.st, j, c.now.epochs[j]) && Harmless(t.st, j, c.now.epochs[j])
    {
      OnwardKeepsEpoch(c.now.st, t.st, j, c.now.epochs[j]);
    }
    forall i | 0 <= i < |c.older| && c.older[i].0.0 == r
      ensures EpochSteady(t.st, c.older[i].0, c.older[i].1) && Harmless(t.st, c.older[i].0, c.older[i].1)
    {
      OnwardKeepsEpoch(c.now.st, t.st, c.older[i].0, c.older[i].1);
    }
  }

  lemma {:induction false} NothingIsLost(c: Crowd, turns: seq<Turn>, max: int, r: string)
    requires CrowdSteady(c, r) && CrowdHarmless(c, r) && !Lost(c.now.st, r)
    ensures !Lost(PlayAll(c, turns, max).now.st, r)
    decreases |turns|
  {
    hide Play, CrowdSteady, CrowdHarmless, Lost;
    if turns != [] {
      PlayKeeps(c, turns[0], max, r);
      NothingIsLost(Play(c, turns[0], max), turns[1..], max, r);
    }
  }

  lemma PlayKeeps(c: Crowd, turn: Turn, max: int, r: string)
    requires CrowdSteady(c, r) && CrowdHarmless(c, r) && !Lost(c.now.st, r)
    ensures var d := Play(c, turn, max); CrowdSteady(d, r) && CrowdHarmless(d, r) && !Lost(d.now.st, r)
  {
    hide CrowdSteady, CrowdHarmless, Lost, Next;
    if turn.Turn? {
      TurnKeeps(c, turn.a, max, r);
    } else if IsOlderTurn(c, turn) {
      OlderTurnKeeps(c, turn, max, r);
    }
  }

  // ----- while the unit is open

  /** The histories of s are still there. */
  ghost predicate Prolongs(st: Store, u: Store) {
    forall r :: r in st.runs ==>
      r in u.runs && r in st.runLog && r in u.runLog && st.runLog[r] != [] && st.runLog[r] <= u.runLog[r]
  }

  /** A pending run is a copy of its creation, whatever the unit or others have written. */
  lemma PendingIsFaithful(s: State, x: State, r: string, max: int)
    requires Inv(x, max) && Prolongs(s.st, x.st) && r in x.st.runs && x.st.runs[r].status == RunPending
    ensures Faithful(s.st, r, x.st.runs[r])
  {
    InvStore(x, max);
    StoreRun(x.st, r);
    if x.st.runs[r].version >= 2 {
      WrittenIsNotPending(x.st, r);
    }
  }

  /** Every epoch but the unit's own writes from copies that s can vouch for. */
  ghost predicate Vouched(s: State, unit: Unit, x: State) {
    forall k :: k in x.epochs && !OwnedBy(unit, k) ==> PcFaithful(s.st, k.0, x.epochs[k].pc)
  }

  /** The token of every epoch was handed out. */
  ghost predicate HandedOut(s: State) {
    forall k :: k in s.epochs ==> s.epochs[k].token in s.st.issued
  }

  lemma IssuedStays(st: Store, k: (string, int), e: Epoch, c: Choice, max: int)
    requires Grounded(st, k.0)
    ensures EpochStep(st, k, e, c, max).0.issued == st.issued
  {
    hide ReadStep, CanTransitionRun, CanTransitionThread, TryCleanup, TryComplete, TryRelease;
  }

  lemma NextHandsOut(s: State, a: Action, max: int)
    requires HandedOut(s)
    ensures HandedOut(Next(s, a, max))
  {
    hide EpochStep, TryHeartbeat, ValidOwner, CanTransitionThread;
    if a.Step? && a.k in s.epochs && Grounded(s.st, a.k.0) {
      IssuedStays(s.st, a.k, s.epochs[a.k], a.choice, max);
    }
  }

  lemma {:induction false} ReachHandsOut(s: State, acts: seq<Action>, max: int)
    requires HandedOut(s)
    ensures HandedOut(Reach(s, acts, max))
    decreases |acts|
  {
    hide HandedOut, Next;
    if acts != [] {
      NextHandsOut(s, acts[0], max);
      ReachHandsOut(Next(s, acts[0], max), acts[1..], max);
    }
  }

  lemma NextProlongs(s: State, x: State, a: Action, max: int)
    requires Inv(x, max) && Prolongs(s.st, x.st)
    ensures Inv(Next(x, a, max), max) && Prolongs(s.st, Next(x, a, max).st)
  {
    hide Inv, Next;
    NextKeeps(x, a, max);
    forall r | r in s.st.runs
      ensures r in Next(x, a, max).st.runs && r in s.st.runLog && r in Next(x, a, max).st.runLog
      ensures s.st.runLog[r] != [] && s.st.runLog[r] <= Next(x, a, max).st.runLog[r]
    {
      NextGrowsLog(x, a, max, r);
    }
  }

  /** A step outside units brings no copy but that of a pending run. */
  lemma StepVouched(s: State, x: State, k: (string, int), c: Choice, max: int)
    requires Inv(x, max) && Prolongs(s.st, x.st) && k in x.epochs && Grounded(x.st, k.0)
    requires PcFaithful(s.st, k.0, x.epochs[k].pc) && !(c != Fault && PcTakesUnit(x.epochs[k].pc, c))
    ensures PcFaithful(s.st, k.0, EpochStep(x.st, k, x.epochs[k], c, max).1)
  {
    hide Inv, Faithful, WriteRun, WriteThread, Prolongs;
    if x.st.runs[k.0].status == RunPending {
      PendingIsFaithful(s, x, k.0, max);
    }
  }

  lemma NextVouched(s: State, unit: Unit, x: State, a: Action, max: int)
    requires Inv(x, max) && Prolongs(s.st, x.st) && Vouched(s, unit, x) && !TakesUnit(x, a)
    requires a.Step? ==> !OwnedBy(unit, a.k)
    ensures Vouched(s, unit, Next(x, a, max))
  {
    hide Inv, EpochStep, Faithful, Prolongs, TryHeartbeat, StartUnit;
    if a.Step? && a.k in x.epochs && Grounded(x.st, a.k.0) {
      StepVouched(s, x, a.k, a.choice, max);
    }
  }

  lemma {:induction false} AlongsideVouched(s: State, unit: Unit, x: State, acts: seq<Action>, max: int)
    requires Inv(x, max) && Prolongs(s.st, x.st) && Vouched(s, unit, x) && Alongside(x, unit, acts, max)
    ensures Inv(Reach(x, acts, max), max) && Prolongs(s.st, Reach(x, acts, max).st)
    ensures Vouched(s, unit, Reach(x, acts, max))
    decreases |acts|
  {
    hide Inv, Prolongs, Vouched, Next, TakesUnit;
    if acts != [] {
      NextProlongs(s, x, acts[0], max);
      NextVouched(s, unit, x, acts[0], max);
      AlongsideVouched(s, unit, Next(x, acts[0], max), acts[1..], max);
    }
  }

  /** The state in which the unit begins vouches for itself. */
  lemma BeginsVouched(s: State, unit: Unit, max: int)
    requires Inv(s, max)
    ensures Prolongs(s.st, s.st) && Vouched(s, unit, s)
  {
    hide StoreOk;
    InvStore(s, max);
    forall r | r in s.st.runs ensures r in s.st.runLog && s.st.runLog[r] != [] {
      StoreRun(s.st, r);
    }
    forall k | k in s.epochs && !OwnedBy(unit, k) ensures PcFaithful(s.st, k.0, s.epochs[k].pc) {
      assert EpochOk(s.st, k, s.epochs[k]);
    }
  }

  /** The unit's own write changes no epoch but its own. */
  lemma WrittenVouched(s: State, unit: Unit, max: int)
    requires Inv(s, max) && (unit.Some? ==> TakesUnit(s, unit.value))
    ensures var x := Written(s, unit, max); Inv(x, max) && Prolongs(s.st, x.st) && Vouched(s, unit, x)
  {
    hide Inv, EpochStep, Prolongs, PcFaithful, StartUnit, PcTakesUnit;
    BeginsVouched(s, unit, max);
    if unit.Some? {
      NextProlongs(s, s, unit.value, max);
    }
  }

  /** A failed call leaves no copy and no claim to complete. */
  lemma FailedCallIsSafe(st: Store, k: (string, int), e: Epoch, c: Choice, max: int)
    requires Grounded(st, k.0) && c != Fault && PcTakesUnit(e.pc, c)
    ensures EpochStep(st, k, e, Fault, max).1 in {Done, Disposing}
  {
  }

  // ----- the theorem

  /** A unit that begins in s is open: it has written, others have gone on, and now it fails. */
  ghost predicate Interrupted(s: State, unit: Unit, between: seq<Action>, max: int) {
    (unit.Some? ==> TakesUnit(s, unit.value)) && Alongside(Written(s, unit, max), unit, between, max)
  }

  ghost function Rolled(s: State, unit: Unit, between: seq<Action>, max: int): (u: State) {
    RollBack(s, unit, Reach(Written(s, unit, max), between, max), max)
  }

  lemma RolledSteady(s: State, unit: Unit, between: seq<Action>, max: int, r: string)
    requires Inv(s, max) && HandedOut(s) && Interrupted(s, unit, between, max)
    ensures Steady(Rolled(s, unit, between, max), r) && !Lost(Rolled(s, unit, between, max).st, r)
    ensures (forall k :: k in Rolled(s, unit, between, max).epochs && k.0 == r ==>
               !CompletesTooEarly(s.st, k, Rolled(s, unit, between, max).epochs[k])) ==>
              CrowdHarmless(Crowd(Rolled(s, unit, between, max), []), r)
  {
    var x := Written(s, unit, max);
    var t := Reach(x, between, max);
    WrittenVouched(s, unit, max);
    AlongsideVouched(s, unit, x, between, max);
    if unit.Some? {
      NextHandsOut(s, unit.value, max);
    }
    ReachHandsOut(x, between, max);
    InvStore(s, max);
    NotLost(s.st, r);
    RollBackSteady(s, unit, t, max, r);
  }

  lemma RollBackSteady(s: State, unit: Unit, t: State, max: int, r: string)
    requires StoreOk(s.st) && HandedOut(t) && Vouched(s, unit, t) && !Lost(s.st, r)
    requires unit.Some? ==> TakesUnit(s, unit.value)
    requires forall k :: OwnedBy(unit, k) ==> Grounded(s.st, k.0)
    ensures var u := RollBack(s, unit, t, max);
            && Steady(u, r) && !Lost(u.st, r)
            && ((forall k :: k in u.epochs && k.0 == r ==> !CompletesTooEarly(s.st, k, u.epochs[k])) ==>
                  CrowdHarmless(Crowd(u, []), r))
  {
    hide StoreOk, EpochStep, PcTakesUnit, TryComplete;
    var u := RollBack(s, unit, t, max);
    if r in s.st.runs {
      StoreRun(s.st, r);
    }
    ClaimsAreOfRuns(s.st, r);
    forall k | k in u.epochs && k.0 == r ensures EpochSteady(u.st, k, u.epochs[k]) {
      if OwnedBy(unit, k) {
        FailedCallIsSafe(s.st, k, s.epochs[k], unit.value.choice, max);
      }
    }
    forall k | k in u.epochs && k.0 == r && !CompletesTooEarly(s.st, k, u.epochs[k])
      ensures Harmless(u.st, k, u.epochs[k])
    {
      NoClaimNoCompletion(s.st, k, u.epochs[k]);
    }
  }

  lemma ClaimsAreOfRuns(st: Store, r: string)
    requires StoreOk(st)
    ensures r in st.claims ==> r in st.runs
  {
  }

  lemma NoClaimNoCompletion(st: Store, k: (string, int), e: Epoch)
    ensures k.0 !in st.claims ==> TryComplete(st.claims, Credential(k, e)).Err?
  {
  }

  /** For every reached state in which a unit begins, everything others do while it is open, its
      rollback, and every run: some continuation loses the run exactly when some epoch, having seen
      the run finished, is about to complete its claim, while the rollback made the run unfinished and
      claimed by that epoch again. */
  lemma RollbackLosesIff(clock: int, before: seq<Action>, unit: Unit, between: seq<Action>, max: int, r: string)
    requires Interrupted(Reached(clock, before, max), unit, between, max)
    ensures var s := Reached(clock, before, max);
            var u := Rolled(s, unit, between, max);
            (exists turns :: Lost(PlayAll(Crowd(u, []), turns, max).now.st, r)) <==>
              exists k :: k in u.epochs && k.0 == r && CompletesTooEarly(s.st, k, u.epochs[k])
  {
    hide Interrupted, Rolled, Inv, Steady, CrowdHarmless, Lost, CompletesTooEarly, Reached, Next, PlayAll, HandedOut;
    var s := Reached(clock, before, max);
    var u := Rolled(s, unit, between, max);
    ReachedInv(clock, before, max);
    assert HandedOut(s) by { ReachedHandsOut(clock, before, max); }
    RolledSteady(s, unit, between, max, r);
    if exists k :: k in u.epochs && k.0 == r && CompletesTooEarly(s.st, k, u.epochs[k]) {
      var k :| k in u.epochs && k.0 == r && CompletesTooEarly(s.st, k, u.epochs[k]);
      CompletionLoses(s, unit, between, max, k);
    } else {
      forall turns ensures !Lost(PlayAll(Crowd(u, []), turns, max).now.st, r) {
        NothingIsLost(Crowd(u, []), turns, max, r);
      }
    }
  }

  lemma ReachedHandsOut(clock: int, acts: seq<Action>, max: int)
    ensures HandedOut(Reached(clock, acts, max))
  {
    ReachHandsOut(Initial(clock), acts, max);
  }

  /** One turn suffices. */
  lemma CompletionLoses(s: State, unit: Unit, between: seq<Action>, max: int, k: (string, int))
    requires Inv(s, max) && Steady(Rolled(s, unit, between, max), k.0) && !Lost(Rolled(s, unit, between, max).st, k.0)
    requires k in Rolled(s, unit, between, max).epochs
    requires CompletesTooEarly(s.st, k, Rolled(s, unit, between, max).epochs[k])
    ensures Lost(PlayAll(Crowd(Rolled(s, unit, between, max), []), [Turn(Step(k, Go))], max).now.st, k.0)
  {
    hide StoreOk, Steady, Lost, Next, TryComplete, Reach;
    var u := Rolled(s, unit, between, max);
    InvStore(s, max);
    StoreRun(s.st, k.0);
    NextSteady(u, Step(k, Go), max, k.0);
    assert Lost(Next(u, Step(k, Go), max).st, k.0);
    OneTurn(Crowd(u, []), Turn(Step(k, Go)), max);
  }

  lemma OneTurn(c: Crowd, turn: Turn, max: int)
    ensures PlayAll(c, [turn], max) == Play(c, turn, max)
  {
    hide Play;
  }
}
