/** Safety of the dispatch protocol over every interleaving. */
module DispatchSafety {
  import opened Base
  import opened Lifecycle
  import opened Claims
  import opened Dispatch
  import opened DispatchInvariant

  // ----- one epoch step keeps the store and the epoch itself

  lemma StoreRun(st: Store, r: string)
    requires StoreOk(st) && r in st.runs
    ensures RunOk(st, r) && ActiveOk(st, r) && ThreadOk(st, st.runs[r].thread)
  {
    assert RunOk(st, r);
  }

  lemma OwnsStays(st: Store, u: Store, r: string, copy: Thread)
    requires Evolves(st, u) && Grounded(st, r) && Owns(st, r, copy)
    ensures Grounded(u, r) && Owns(u, r, copy)
  {
    assert RunEvolves(st, u, r);
    assert ThreadEvolves(st, u, st.runs[r].thread);
  }

  /** A run that was ever written is not pending. */
  lemma WrittenIsNotPending(st: Store, r: string)
    requires r in st.runs && RunOk(st, r) && st.runs[r].version >= 2
    ensures st.runs[r].status != RunPending
  {
    var h := st.runLog[r];
    EdgeIncreasesRank(h[|h| - 2], h[|h| - 1]);
  }

  /** The thread write of an epoch whose run already moved. */
  lemma OwnerMovesThread(st: Store, r: string, copy: Thread, next: ThreadStatus)
    requires StoreOk(st) && r in st.runs && Grounded(st, r) && Owns(st, r, copy)
    requires st.runs[r].version >= 2 && (Working(next) || Terminal(st.runs[r].status))
    requires WriteThread(st, st.runs[r].thread, copy, next).Some?
    ensures StoreOk(WriteThread(st, st.runs[r].thread, copy, next).value)
    ensures Evolves(st, WriteThread(st, st.runs[r].thread, copy, next).value)
    ensures Quiet(st, WriteThread(st, st.runs[r].thread, copy, next).value)
    ensures Owns(WriteThread(st, st.runs[r].thread, copy, next).value, r, Thread(next, copy.version + 1))
  {
    hide StoreOk, Evolves, Quiet, RunPath, EventsOk, ThreadPath;
    var t := st.runs[r].thread;
    StoreRun(st, r);
    WrittenIsNotPending(st, r);
    forall q | Active(st, t, q) ensures Working(next) && st.runs[q].status != RunPending {
      assert q == r;
    }
    WriteThreadKeeps(st, t, copy, next);
    var u := WriteThread(st, t, copy, next).value;
    forall q | Active(u, t, q) ensures q == r {
      assert Active(st, t, q);
    }
  }

  lemma TerminalWasWritten(st: Store, r: string)
    requires r in st.runs && RunOk(st, r) && Terminal(st.runs[r].status)
    ensures st.runs[r].version >= 2
  {
  }

  /** Finishing a run without its event: failRun, checkCancelled, completion. */
  lemma FinishKeeps(st: Store, r: string, copy: Run, thread: Thread, outcome: RunStatus)
    requires StoreOk(st) && r in st.runs && Grounded(st, r) && RunCopy(st, r, copy) && Owns(st, r, thread)
    requires Terminal(outcome) && WriteRun(st, r, copy, outcome, false).Some?
    ensures StoreOk(WriteRun(st, r, copy, outcome, false).value)
    ensures Evolves(st, WriteRun(st, r, copy, outcome, false).value)
    ensures Quiet(st, WriteRun(st, r, copy, outcome, false).value)
    ensures Grounded(WriteRun(st, r, copy, outcome, false).value, r)
    ensures Owns(WriteRun(st, r, copy, outcome, false).value, r, thread)
    ensures Unannounced(WriteRun(st, r, copy, outcome, false).value.runLog[r],
                        WriteRun(st, r, copy, outcome, false).value.events[r])
    ensures !Terminal(st.runs[r].status)
  {
    hide StoreOk, Evolves, Quiet, ActiveOk, RunPath, EventsOk, Unannounced;
    StoreRun(st, r);
    WriteRunKeepsRun(st, r, copy, outcome, false);
    WriteRunKeeps(st, r, copy, outcome, false);
    OwnsStays(st, WriteRun(st, r, copy, outcome, false).value, r, thread);
  }

  /** What a step of epoch k owes to the rest of the system. */
  ghost predicate StepOk(st: Store, res: (Store, Pc), k: (string, int), from: Pc) {
    var (u, to) := res;
    && StoreOk(u) && Evolves(st, u) && Grounded(st, k.0) && Grounded(u, k.0) && PcOk(u, k.0, to)
    && !to.Dispatching?
    && (to.Emitting? ==> Unannounced(u.runLog[k.0], u.events[k.0]))
    && (to.Emitting? && !from.Emitting? ==> !Terminal(st.runs[k.0].status))
    && (forall q :: q in st.runs && Grounded(st, q) && Terminal(st.runs[q].status) ==>
          || (q in u.runLog && q in u.events && u.runLog[q] == st.runLog[q] && u.events[q] == st.events[q])
          || (q == k.0 && from.Emitting? && !to.Emitting?))
  }

  /** A step that leaves the store alone. */
  lemma StutterOk(st: Store, k: (string, int), from: Pc, to: Pc)
    requires StoreOk(st) && Grounded(st, k.0) && PcOk(st, k.0, to) && !to.Dispatching?
    requires to.Emitting? ==> from.Emitting? && Unannounced(st.runLog[k.0], st.events[k.0])
    ensures StepOk(st, (st, to), k, from)
  {
    SameRunsKeep(st, st);
  }

  lemma ReadRunOk(st: Store, r: string)
    requires StoreOk(st) && r in st.runs && Grounded(st, r)
    ensures RunCopy(st, r, st.runs[r]) && ThreadCopy(st, st.runs[r].thread, st.threads[st.runs[r].thread])
    ensures !Terminal(st.runs[r].status) ==> Owns(st, r, st.threads[st.runs[r].thread])
    ensures st.runs[r].status == RunPending ==> st.threads[st.runs[r].thread].status == ThreadPlanning
  {
    hide StoreOk;
    StoreRun(st, r);
  }

  /** A thread read after a run copy that is still current belongs to that run. */
  lemma ReadThreadOk(st: Store, r: string, copy: Run)
    requires StoreOk(st) && r in st.runs && Grounded(st, r) && RunCopy(st, r, copy) && !Terminal(copy.status)
    ensures PcOk(st, r, ConvergeReady(copy, st.threads[st.runs[r].thread]))
    ensures copy.status == RunPending ==> PcOk(st, r, At(Loaded, copy, st.threads[st.runs[r].thread]))
  {
    hide StoreOk;
    ReadRunOk(st, r);
    StoreRun(st, r);
    if copy.version == st.runs[r].version {
      FreshCopy(st, r, copy);
    }
  }

  lemma ReadOk(st: Store, k: (string, int), e: Epoch, c: Choice, max: int)
    requires StoreOk(st) && k.0 in st.runs && Grounded(st, k.0) && PcOk(st, k.0, e.pc)
    ensures StepOk(st, (st, ReadStep(st, k.0, e, c, max)), k, e.pc)
  {
    hide StoreOk, StepOk;
    var pc := ReadStep(st, k.0, e, c, max);
    ReadRunOk(st, k.0);
    match e.pc {
      case ConvergeLoaded(copy) => ReadThreadOk(st, k.0, copy);
      case RunLoaded(copy) => ReadThreadOk(st, k.0, copy);
      case _ =>
    }
    StutterOk(st, k, e.pc, pc);
  }

  /** Fenced operations and cleanups keep every other row and every counter. */
  lemma ClaimOpsKeepCounters(t: Table, ref: Ref, run: Option<RunStatus>, now: int)
    ensures TryRelease(t, ref, now).Ok? ==> SameCounters(t, TryRelease(t, ref, now).value, {})
    ensures TryComplete(t, ref).Ok? ==> SameCounters(t, TryComplete(t, ref).value, {ref.run})
    ensures TryCleanup(t, ref.run, run).Ok? ==>
              SameCounters(t, TryCleanup(t, ref.run, run).value, {ref.run}) && run.Some? && Terminal(run.value)
  {
  }

  ghost predicate SameCounters(t: Table, u: Table, removed: set<string>) {
    && u.Keys == t.Keys - removed
    && forall r :: r in u ==> u[r].generation == t[r].generation && u[r].attempts == t[r].attempts
  }

  lemma CountersKeep(st: Store, claims: Table, k: (string, int), removed: set<string>, from: Pc, to: Pc)
    requires StoreOk(st) && Grounded(st, k.0) && SameCounters(st.claims, claims, removed)
    requires forall r :: r in removed ==> r in st.runs && Terminal(st.runs[r].status)
    requires to == Done || to == Cleaning
    ensures StepOk(st, (st.(claims := claims), to), k, from)
  {
    ClaimsKeep(st, claims, st.issued);
    assert st.(claims := claims) == st.(claims := claims, issued := st.issued);
  }

  lemma ClaimStepOk(st: Store, k: (string, int), e: Epoch, c: Choice)
    requires StoreOk(st) && k.0 in st.runs && Grounded(st, k.0) && PcOk(st, k.0, e.pc)
    requires e.pc.Cleaning? || e.pc.Completing? || e.pc.Releasing?
    ensures StepOk(st, ClaimStep(st, k, e, c), k, e.pc)
  {
    hide StoreOk, StepOk;
    var ref := Credential(k, e);
    var run := Some(st.runs[k.0].status);
    ClaimOpsKeepCounters(st.claims, ref, run, st.clock);
    var (o, removed) :=
      match e.pc
      case Cleaning => (TryCleanup(st.claims, k.0, run), {k.0})
      case Completing => (TryComplete(st.claims, ref), {k.0})
      case _ => (TryRelease(st.claims, ref, st.clock), {});
    StutterOk(st, k, e.pc, Done);
    StutterOk(st, k, e.pc, Cleaning);
    if o.Ok? {
      CountersKeep(st, o.value, k, removed, e.pc, Done);
    }
  }

  lemma RouteOk(st: Store, k: (string, int), from: Pc, copy: Thread, next: Option<ThreadStatus>, done: Pc, failed: Pc)
    requires StoreOk(st) && k.0 in st.runs && Grounded(st, k.0) && Owns(st, k.0, copy)
    requires Terminal(st.runs[k.0].status)
    requires done == Cleaning || done == Disposing
    requires failed == Done || failed == Disposing
    ensures StepOk(st, RouteStep(st, k.0, copy, next, done, failed), k, from)
  {
    hide StoreOk, Evolves;
    StoreRun(st, k.0);
    TerminalWasWritten(st, k.0);
    StutterOk(st, k, from, done);
    StutterOk(st, k, from, failed);
    if next.Some? && WriteThread(st, st.runs[k.0].thread, copy, next.value).Some? {
      OwnerMovesThread(st, k.0, copy, next.value);
    }
  }

  lemma FinishOk(st: Store, k: (string, int), from: Pc, copy: Run, thread: Thread, outcome: RunStatus)
    requires StoreOk(st) && k.0 in st.runs && Grounded(st, k.0) && RunCopy(st, k.0, copy)
    requires copy.version == st.runs[k.0].version ==> Owns(st, k.0, thread)
    requires Terminal(outcome)
    ensures StepOk(st, RunStep(st, k.0, copy, outcome, false, Emitting(outcome, thread), Disposing), k, from)
  {
    hide StoreOk, Evolves, Unannounced, Owns, RunCopy;
    StutterOk(st, k, from, Disposing);
    if WriteRun(st, k.0, copy, outcome, false).Some? {
      assert copy.version == st.runs[k.0].version;
      FinishKeeps(st, k.0, copy, thread, outcome);
    }
  }

  lemma ConvergeOk(st: Store, k: (string, int), from: Pc, copy: Run, thread: Thread)
    requires StoreOk(st) && k.0 in st.runs && Grounded(st, k.0) && PcOk(st, k.0, ConvergeReady(copy, thread))
    ensures StepOk(st, RunStep(st, k.0, copy, Convergence(copy.status), true,
                               ConvergeRouting(Convergence(copy.status), thread), Done), k, from)
  {
    hide StoreOk, Evolves;
    var outcome := Convergence(copy.status);
    StutterOk(st, k, from, Done);
    StoreRun(st, k.0);
    if WriteRun(st, k.0, copy, outcome, true).Some? {
      WriteRunKeeps(st, k.0, copy, outcome, true);
      OwnsStays(st, WriteRun(st, k.0, copy, outcome, true).value, k.0, thread);
    }
  }

  lemma RunAdvanced(st: Store, u: Store, r: string, at: Stage, copy: Run, thread: Thread)
    requires Grounded(st, r) && PcOk(st, r, At(at, copy, thread)) && Forward(at).MoveRun?
    requires WriteRun(st, r, copy, Forward(at).run, true) == Some(u)
    requires Grounded(u, r) && Owns(u, r, thread) && RunOk(u, r)
    ensures PcOk(u, r, At(Forward(at).next, u.runs[r], thread))
  {
    hide RunPath, EventsOk, ThreadCopy;
  }

  lemma AdvanceRunOk(st: Store, k: (string, int), at: Stage, copy: Run, thread: Thread)
    requires StoreOk(st) && k.0 in st.runs && Grounded(st, k.0) && PcOk(st, k.0, At(at, copy, thread))
    requires Forward(at).MoveRun?
    ensures StepOk(st, StageStep(st, k.0, at, copy, thread, Go), k, At(at, copy, thread))
  {
    hide StoreOk, Evolves, ActiveOk, RunOk;
    var r, next := k.0, Forward(at).run;
    StutterOk(st, k, At(at, copy, thread), Disposing);
    if WriteRun(st, r, copy, next, true).Some? {
      var u := WriteRun(st, r, copy, next, true).value;
      WriteRunKeeps(st, r, copy, next, true);
      OwnsStays(st, u, r, thread);
      StoreRun(u, r);
      RunAdvanced(st, u, r, at, copy, thread);
    }
  }

  lemma ThreadAdvanced(st: Store, u: Store, r: string, at: Stage, copy: Run, thread: Thread)
    requires Grounded(st, r) && PcOk(st, r, At(at, copy, thread)) && Forward(at).MoveThread?
    requires WriteThread(st, st.runs[r].thread, thread, Forward(at).thread) == Some(u)
    requires Owns(u, r, Thread(Forward(at).thread, thread.version + 1))
    ensures PcOk(u, r, At(Forward(at).next, copy, Thread(Forward(at).thread, thread.version + 1)))
  {
    hide ThreadCopy;
  }

  lemma AdvanceThreadOk(st: Store, k: (string, int), at: Stage, copy: Run, thread: Thread)
    requires StoreOk(st) && k.0 in st.runs && Grounded(st, k.0) && PcOk(st, k.0, At(at, copy, thread))
    requires Forward(at).MoveThread?
    ensures StepOk(st, StageStep(st, k.0, at, copy, thread, Go), k, At(at, copy, thread))
  {
    hide StoreOk, Evolves;
    var r, next := k.0, Forward(at).thread;
    StutterOk(st, k, At(at, copy, thread), Disposing);
    if WriteThread(st, st.runs[r].thread, thread, next).Some? {
      OwnerMovesThread(st, r, thread, next);
      ThreadAdvanced(st, WriteThread(st, st.runs[r].thread, thread, next).value, r, at, copy, thread);
    }
  }

  lemma EmitOk(st: Store, k: (string, int), outcome: RunStatus, thread: Thread, c: Choice)
    requires StoreOk(st) && k.0 in st.runs && Grounded(st, k.0) && PcOk(st, k.0, Emitting(outcome, thread))
    requires Unannounced(st.runLog[k.0], st.events[k.0])
    ensures StepOk(st, EmitStep(st, k.0, outcome, thread, c), k, Emitting(outcome, thread))
  {
    hide StoreOk, Evolves;
    StutterOk(st, k, Emitting(outcome, thread), Routing(outcome, thread));
    StutterOk(st, k, Emitting(outcome, thread), Disposing);
    AnnounceKeeps(st, k.0);
    OwnsStays(st, Announce(st, k.0, outcome), k.0, thread);
  }

  lemma StageOk(st: Store, k: (string, int), at: Stage, copy: Run, thread: Thread, c: Choice)
    requires StoreOk(st) && k.0 in st.runs && Grounded(st, k.0) && PcOk(st, k.0, At(at, copy, thread))
    ensures StepOk(st, StageStep(st, k.0, at, copy, thread, c), k, At(at, copy, thread))
  {
    hide StoreOk, StepOk;
    var from := At(at, copy, thread);
    StutterOk(st, k, from, Disposing);
    StutterOk(st, k, from, from);
    match c
    case Go =>
      match Forward(at) {
        case MoveRun(_, _) => AdvanceRunOk(st, k, at, copy, thread);
        case MoveThread(_, _) => AdvanceThreadOk(st, k, at, copy, thread);
        case Finish => FinishOk(st, k, from, copy, thread, RunCompleted);
      }
    case FailRun => FinishOk(st, k, from, copy, thread, RunFailed);
    case CancelRun => FinishOk(st, k, from, copy, thread, RunCancelled);
    case _ =>
  }

  lemma EpochStepOk(st: Store, k: (string, int), e: Epoch, c: Choice, max: int)
    requires StoreOk(st) && k.0 in st.runs && Grounded(st, k.0) && PcOk(st, k.0, e.pc)
    requires e.pc.Emitting? ==> Unannounced(st.runLog[k.0], st.events[k.0])
    ensures StepOk(st, EpochStep(st, k, e, c, max), k, e.pc)
  {
    hide StoreOk, StepOk;
    match e.pc
    case Cleaning => ClaimStepOk(st, k, e, c);
    case Completing => ClaimStepOk(st, k, e, c);
    case Releasing => ClaimStepOk(st, k, e, c);
    case ConvergeReady(copy, thread) =>
      StutterOk(st, k, e.pc, Done);
      ConvergeOk(st, k, e.pc, copy, thread);
    case ConvergeRouting(outcome, thread) =>
      StutterOk(st, k, e.pc, Done);
      RouteOk(st, k, e.pc, thread, RouteConverged(outcome, thread.status), Cleaning, Done);
    case At(at, copy, thread) => StageOk(st, k, at, copy, thread, c);
    case Emitting(outcome, thread) => EmitOk(st, k, outcome, thread, c);
    case Routing(outcome, thread) =>
      StutterOk(st, k, e.pc, Disposing);
      RouteOk(st, k, e.pc, thread, RouteAfter(outcome, thread.status, c != Blocked), Disposing, Disposing);
    case _ => ReadOk(st, k, e, c, max);
  }
}
