/** The guarantees of the dispatch protocol, for every sequence of actions by any
    number of epochs and start requests. */
module DispatchTheorems {
  import opened Lifecycle
  import opened Claims
  import opened Dispatch
  import opened DispatchInvariant
  import opened DispatchSafety

  // ----- the system invariant

  ghost predicate StarterOk(st: Store, w: Starter) {
    w.thread in st.threads && w.thread in st.threadLog && ThreadCopy(st, w.thread, w.copy)
  }

  /** An epoch about to emit is the only one for its run, and the event is missing. */
  ghost predicate EmitsAlone(st: Store, epochs: map<(string, int), Epoch>, k: (string, int)) {
    && k.0 in st.runLog && k.0 in st.events && Unannounced(st.runLog[k.0], st.events[k.0])
    && forall j :: j in epochs && epochs[j].pc.Emitting? && j.0 == k.0 ==> j == k
  }

  /** Every logged call of Execute was made by a different epoch within budget. */
  ghost predicate CallsOk(calls: seq<(string, int)>, epochs: map<(string, int), Epoch>, max: int) {
    && (forall i :: 0 <= i < |calls| ==>
          calls[i] in epochs && !epochs[calls[i]].pc.Dispatching? && 1 <= calls[i].1 <= max)
    && (forall i, j :: 0 <= i < j < |calls| ==> calls[i] != calls[j])
  }

  ghost predicate Inv(s: State, max: int) {
    && StoreOk(s.st)
    && (forall k :: k in s.epochs ==> EpochOk(s.st, k, s.epochs[k]))
    && (forall k :: k in s.epochs && s.epochs[k].pc.Emitting? ==> EmitsAlone(s.st, s.epochs, k))
    && (forall id :: id in s.starters ==> StarterOk(s.st, s.starters[id]))
    && CallsOk(s.calls, s.epochs, max)
  }

  // ----- every action keeps it

  /** Store changes that no epoch can notice. */
  lemma StoreChangeKeeps(s: State, u: Store, max: int)
    requires Inv(s, max) && StoreOk(u) && Evolves(s.st, u) && Quiet(s.st, u)
    ensures Inv(s.(st := u), max)
  {
    hide StoreOk;
    forall k | k in s.epochs ensures EpochOk(u, k, s.epochs[k]) {
      EvolutionKeepsEpoch(s.st, u, k, s.epochs[k]);
    }
    forall k | k in s.epochs && s.epochs[k].pc.Emitting? ensures EmitsAlone(u, s.epochs, k) {
      EmittingIsQuiet(s, u, k, max);
    }
    forall id | id in s.starters ensures StarterOk(u, s.starters[id]) {
      EvolutionKeepsThreadCopy(s.st, u, s.starters[id].thread, s.starters[id].copy);
    }
  }

  lemma EmittingIsQuiet(s: State, u: Store, k: (string, int), max: int)
    requires Inv(s, max) && Quiet(s.st, u) && k in s.epochs && s.epochs[k].pc.Emitting?
    ensures EmitsAlone(u, s.epochs, k)
  {
    hide StoreOk;
    assert EmitsAlone(s.st, s.epochs, k) && EpochOk(s.st, k, s.epochs[k]);
    assert Terminal(s.st.runs[k.0].status);
  }

  lemma EpochStepKeeps(s: State, k: (string, int), c: Choice, max: int)
    requires Inv(s, max) && k in s.epochs
    ensures Inv(Next(s, Step(k, c), max), max)
  {
    hide StoreOk, StepOk, PcOk, Evolves, EpochStep;
    var e := s.epochs[k];
    assert EpochOk(s.st, k, e);
    assert e.pc.Emitting? ==> EmitsAlone(s.st, s.epochs, k);
    EpochStepOk(s.st, k, e, c, max);
    var (u, pc) := EpochStep(s.st, k, e, c, max);
    var t := Next(s, Step(k, c), max);
    StepEpochs(s, u, pc, k, max);
    StepEmits(s, u, pc, k, max);
    if e.pc.Dispatching? && pc.ExecuteCalled? {
      CallIsWithinBudget(s.st, k, e, c, max);
    }
    StepCalls(s, pc, k, max);
    assert t.st == u && t.epochs == s.epochs[k := e.(pc := pc)];
  }

  lemma StepEpochs(s: State, u: Store, pc: Pc, k: (string, int), max: int)
    requires Inv(s, max) && k in s.epochs && StepOk(s.st, (u, pc), k, s.epochs[k].pc)
    ensures StoreOk(u) && !pc.Dispatching?
    ensures forall j :: j in s.epochs && j != k ==> EpochOk(u, j, s.epochs[j])
    ensures EpochOk(u, k, s.epochs[k].(pc := pc))
    ensures forall id :: id in s.starters ==> StarterOk(u, s.starters[id])
  {
    hide StoreOk, PcOk;
    forall j | j in s.epochs && j != k ensures EpochOk(u, j, s.epochs[j]) {
      EvolutionKeepsEpoch(s.st, u, j, s.epochs[j]);
    }
    forall id | id in s.starters ensures StarterOk(u, s.starters[id]) {
      EvolutionKeepsThreadCopy(s.st, u, s.starters[id].thread, s.starters[id].copy);
    }
    assert EpochOk(s.st, k, s.epochs[k]);
  }

  lemma StepEmits(s: State, u: Store, pc: Pc, k: (string, int), max: int)
    requires Inv(s, max) && k in s.epochs && StepOk(s.st, (u, pc), k, s.epochs[k].pc)
    ensures var epochs := s.epochs[k := s.epochs[k].(pc := pc)];
            forall j :: j in epochs && epochs[j].pc.Emitting? ==> EmitsAlone(u, epochs, j)
  {
    hide StoreOk, Evolves;
    var epochs := s.epochs[k := s.epochs[k].(pc := pc)];
    forall j | j in epochs && epochs[j].pc.Emitting? ensures EmitsAlone(u, epochs, j) {
      forall i | i in epochs && epochs[i].pc.Emitting? && i.0 == j.0 ensures i == j {
        EmittingIsFinished(s, i, max);
        EmittingIsFinished(s, j, max);
      }
      EmittingIsFinished(s, j, max);
    }
  }

  lemma EmittingIsFinished(s: State, k: (string, int), max: int)
    requires Inv(s, max) && k in s.epochs
    ensures s.epochs[k].pc.Emitting? ==>
              k.0 in s.st.runs && Grounded(s.st, k.0) && Terminal(s.st.runs[k.0].status) &&
              EmitsAlone(s.st, s.epochs, k)
  {
    hide StoreOk;
    assert EpochOk(s.st, k, s.epochs[k]);
  }

  /** Execute is called only within the dispatch budget. */
  lemma CallIsWithinBudget(st: Store, k: (string, int), e: Epoch, c: Choice, max: int)
    requires Grounded(st, k.0) && e.pc.Dispatching? && EpochStep(st, k, e, c, max).1 == ExecuteCalled
    ensures e.attempts <= max
  {
  }

  lemma StepCalls(s: State, pc: Pc, k: (string, int), max: int)
    requires CallsOk(s.calls, s.epochs, max) && k in s.epochs && !pc.Dispatching?
    requires s.epochs[k].pc.Dispatching? && pc.ExecuteCalled? ==> 1 <= k.1 <= max
    ensures var epochs := s.epochs[k := s.epochs[k].(pc := pc)];
            && CallsOk(s.calls, epochs, max)
            && (s.epochs[k].pc.Dispatching? && pc.ExecuteCalled? ==> CallsOk(s.calls + [k], epochs, max))
  {
  }

  lemma AcquireKeeps(s: State, r: string, owner: string, token: string, lease: int, max: int)
    requires Inv(s, max)
    ensures Inv(Next(s, Acquire(r, owner, token, lease), max), max)
  {
    hide StoreOk, EpochOk, EmitsAlone, StarterOk, CallsOk, ValidOwner, Eligible;
    var o := TryAcquire(s.st.claims, r, owner, token, s.st.clock, lease);
    if token !in s.st.issued && o.Ok? {
      var u := s.st.(claims := o.value, issued := s.st.issued + {token});
      AcquireKeepsStore(s.st, r, owner, token, lease);
      StoreChangeKeeps(s, u, max);
      StaleKeys(s, r, max);
      NewEpochKeeps(s.(st := u), (r, o.value[r].generation), owner, token, max);
    }
  }

  lemma AcquireKeepsStore(st: Store, r: string, owner: string, token: string, lease: int)
    requires StoreOk(st) && TryAcquire(st.claims, r, owner, token, st.clock, lease).Ok?
    ensures var u := st.(claims := TryAcquire(st.claims, r, owner, token, st.clock, lease).value,
                         issued := st.issued + {token});
            && StoreOk(u) && Evolves(st, u) && Quiet(st, u)
            && r in st.claims && r in u.claims
            && u.claims[r].generation == u.claims[r].attempts == st.claims[r].generation + 1 >= 1
  {
    hide RunOk, ActiveOk, ThreadOk, Evolves, Quiet;
    var claims := TryAcquire(st.claims, r, owner, token, st.clock, lease).value;
    ClaimsKeep(st, claims, st.issued + {token});
  }

  /** A freshly acquired epoch joins: its key is new and it has done nothing yet. */
  lemma NewEpochKeeps(s: State, k: (string, int), owner: string, token: string, max: int)
    requires Inv(s, max) && k !in s.epochs && k.0 in s.st.claims
    requires s.st.claims[k.0].generation == s.st.claims[k.0].attempts == k.1 >= 1
    ensures Inv(s.(epochs := s.epochs[k := Epoch(owner, token, k.1, false, Dispatching)]), max)
  {
    hide RunOk, ActiveOk, ThreadOk;
    assert k.0 in s.st.runs;
    StoreRun(s.st, k.0);
    var e := Epoch(owner, token, k.1, false, Dispatching);
    assert EpochOk(s.st, k, e) by { GroundedRun(s.st, k.0); }
    var epochs := s.epochs[k := e];
    forall j | j in epochs && epochs[j].pc.Emitting? ensures EmitsAlone(s.st, epochs, j) {
      assert EmitsAlone(s.st, s.epochs, j);
    }
  }

  lemma GroundedRun(st: Store, r: string)
    requires r in st.runs && RunOk(st, r)
    ensures Grounded(st, r)
  {
  }

  /** Every epoch of a run has a generation the claim already reached. */
  lemma StaleKeys(s: State, r: string, max: int)
    requires Inv(s, max) && r in s.st.claims
    ensures forall g :: g > s.st.claims[r].generation ==> (r, g) !in s.epochs
  {
    hide StoreOk, PcOk;
    forall g | g > s.st.claims[r].generation ensures (r, g) !in s.epochs {
      assert (r, g) in s.epochs ==> EpochOk(s.st, (r, g), s.epochs[(r, g)]);
    }
  }

  lemma BeatKeeps(s: State, k: (string, int), extendFor: int, verdict: bool, max: int)
    requires Inv(s, max)
    ensures Inv(Next(s, Beat(k, extendFor, verdict), max), max)
  {
    hide StoreOk, EpochOk, EmitsAlone, StarterOk, ValidOwner, Evolves, Quiet;
    if k in s.epochs {
      var e := s.epochs[k];
      var o := TryHeartbeat(s.st.claims, Credential(k, e), s.st.clock, extendFor);
      if o.Ok? {
        BeatKeepsStore(s.st, Credential(k, e), extendFor);
        StoreChangeKeeps(s, s.st.(claims := o.value), max);
      } else {
        SamePcKeeps(s, k, e.(lost := e.lost || verdict), max);
      }
    }
  }

  lemma BeatKeepsStore(st: Store, ref: Ref, extendFor: int)
    requires StoreOk(st) && TryHeartbeat(st.claims, ref, st.clock, extendFor).Ok?
    ensures var u := st.(claims := TryHeartbeat(st.claims, ref, st.clock, extendFor).value);
            StoreOk(u) && Evolves(st, u) && Quiet(st, u)
  {
    hide RunOk, ActiveOk, ThreadOk, Evolves, Quiet;
    var claims := TryHeartbeat(st.claims, ref, st.clock, extendFor).value;
    ClaimsKeep(st, claims, st.issued);
    assert st.(claims := claims) == st.(claims := claims, issued := st.issued);
  }

  /** Flags other than the program counter do not matter; dying drops all claims. */
  lemma SamePcKeeps(s: State, k: (string, int), e: Epoch, max: int)
    requires Inv(s, max) && k in s.epochs && e.attempts == s.epochs[k].attempts
    requires e.pc == s.epochs[k].pc || e.pc == Done
    ensures Inv(s.(epochs := s.epochs[k := e]), max)
  {
    hide StoreOk;
    var epochs := s.epochs[k := e];
    assert EpochOk(s.st, k, s.epochs[k]);
    forall j | j in epochs && epochs[j].pc.Emitting? ensures EmitsAlone(s.st, epochs, j) {
      assert EmitsAlone(s.st, s.epochs, j);
    }
  }

  lemma CreateThreadKeeps(st: Store, t: string)
    requires StoreOk(st) && t !in st.threads
    ensures var u := st.(threads := st.threads[t := Thread(ThreadIdle, 1)],
                         threadLog := st.threadLog[t := [ThreadIdle]]);
            StoreOk(u) && Evolves(st, u) && Quiet(st, u)
  {
    var u := st.(threads := st.threads[t := Thread(ThreadIdle, 1)], threadLog := st.threadLog[t := [ThreadIdle]]);
    forall q | q in u.runs ensures RunOk(u, q) && ActiveOk(u, q) {
      StoreRun(st, q);
      UntouchedRun(st, u, q);
      assert NoNewActive(st, u, st.runs[q].thread);
      ActiveStays(st, u, q);
    }
    forall t' | t' in u.threads ensures ThreadOk(u, t') {
      assert t' != t ==> ThreadOk(st, t');
    }
    forall t' | t' in st.threads && t' in st.threadLog ensures ThreadEvolves(st, u, t') {
      assert NoNewActive(st, u, t');
    }
  }

  lemma StartReadKeeps(s: State, id: int, t: string, key: string, max: int)
    requires Inv(s, max) && t in s.st.threads
    ensures Inv(Next(s, StartRead(id, t, key), max), max)
  {
    hide RunOk, ActiveOk, EpochOk, EmitsAlone, CallsOk;
    assert ThreadOk(s.st, t);
    assert StarterOk(s.st, Starter(t, key, s.st.threads[t]));
  }

  lemma StartCommitKeeps(s: State, id: int, r: string, max: int)
    requires Inv(s, max) && id in s.starters
    ensures Inv(Next(s, StartCommit(id, r), max), max)
  {
    hide StoreOk, EpochOk, EmitsAlone, CallsOk, Evolves, Quiet, StartUnit;
    var w := s.starters[id];
    assert StarterOk(s.st, w);
    var o := StartUnit(s.st, r, w.thread, w.key, w.copy);
    if o.Some? {
      StartKeeps(s.st, r, w.thread, w.key, w.copy);
      StoreChangeKeeps(s, o.value, max);
    }
  }

  lemma TickKeeps(st: Store, now: int)
    requires StoreOk(st)
    ensures StoreOk(st.(clock := now)) && Evolves(st, st.(clock := now)) && Quiet(st, st.(clock := now))
  {
    hide RunOk, ActiveOk, ThreadOk;
    SameRunsKeep(st, st.(clock := now));
  }

  lemma NextKeeps(s: State, a: Action, max: int)
    requires Inv(s, max)
    ensures Inv(Next(s, a, max), max)
  {
    hide Inv, StoreOk, EpochStep;
    InvStore(s, max);
    match a
    case Tick(now) =>
      TickKeeps(s.st, now);
      StoreChangeKeeps(s, s.st.(clock := now), max);
    case CreateThread(t) =>
      if t !in s.st.threads {
        CreateThreadKeeps(s.st, t);
        StoreChangeKeeps(s, Next(s, a, max).st, max);
      }
    case StartRead(id, t, key) =>
      if t in s.st.threads {
        StartReadKeeps(s, id, t, key, max);
      }
    case StartCommit(id, r) =>
      if id in s.starters {
        StartCommitKeeps(s, id, r, max);
      }
    case Acquire(r, owner, token, lease) => AcquireKeeps(s, r, owner, token, lease, max);
    case Beat(k, extendFor, verdict) => BeatKeeps(s, k, extendFor, verdict, max);
    case Step(k, c) =>
      if k in s.epochs {
        EpochStepKeeps(s, k, c, max);
      }
    case Crash(k) =>
      if k in s.epochs {
        SamePcKeeps(s, k, s.epochs[k].(pc := Done), max);
      }
  }

  lemma InvStore(s: State, max: int)
    requires Inv(s, max)
    ensures StoreOk(s.st)
  {
  }

  /** The invariant holds in every state the protocol can reach. */
  lemma {:induction false} ReachableInv(s: State, acts: seq<Action>, max: int)
    requires Inv(s, max)
    ensures Inv(Reach(s, acts, max), max)
    decreases |acts|
  {
    if acts != [] {
      NextKeeps(s, acts[0], max);
      ReachableInv(Next(s, acts[0], max), acts[1..], max);
    }
  }
}
