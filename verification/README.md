# Ants: a verified model of its durable core

Ants executes agent runs durably: a run is started on a thread, claimed by a worker under a lease,
driven through a pipeline of stages, and recovered or given up if the worker dies. Its events leave
through a transactional outbox, its results are composed from task branches in a small SCM driver,
and its web console pages run histories and renews login tokens. This project models the five state
machines behind that in Dafny 4.11 and proves what they promise. `dafny verify dfyconfig.toml`
checks everything.

## What is modelled

**Run dispatch** (`Lifecycle`, `Claims`, `ClaimHistory`, `Dispatch*`). `Claims.RunClaimRepository` is
the claim store with its methods, both the sort-and-truncate batch of the memory adapter and the
one-row-at-a-time loop of the PostgreSQL adapter. `ClaimHistory` runs arbitrary histories of claim
operations. `Dispatch` is the whole protocol as a state machine: a store of runs, threads, claims,
status histories and emitted status events; any number of acquisition epochs, each at its own program
point of worker, engine and recovery code and holding private, possibly stale copies of a run and a
thread; any number of pending start requests. One action is one store access of one participant. A
crash is an epoch that never moves again, a fault is a store call that fails, and a copy whose update
failed is abandoned, as the engine does. Every theorem of `DispatchResults` quantifies over all action
sequences from the empty store. `DispatchOutcomes` says, for every state so reached, how a dispatch ends when
nobody disturbs it. `DispatchWitnesses` gives action sequences that reach the states where the guarantees would
fail without what they rest on; `DispatchRollback`, `DispatchLosses` and `DispatchOverlap` say what the
rollback of a unit does to everything that went on beside it.

**Outbox** (`OutboxRow`, `OutboxTable`, `MemoryStore`, `OutboxSweep`, `OutboxStore`, `EventLog`,
`OutboxDispatcher`, `OutboxProtocol`). Rows are objects that change in place; the slice and the two
indexes refer to the same objects. `MemoryStore.View` is such a trio at one moment. `OutboxProtocol`
interleaves any number of dispatchers, publishers, operators and sweeps.

**Units of work** (`UnitSemantics`, `UnitOfWork`, `Transactor`). `UnitSemantics` says on values what programs
of store operations with nested units, swallowed errors, failures and panics mean. `UnitOfWork` and
`Transactor` are backup, restore and an executor over real objects, proved to follow that meaning.

**SCM and integration** (`CommitGraph`, `TreeMerge`, `Repository`, `Integration`, `Scm`,
`StageIntegrate`, `RunRepository`). Commit graph, merge-base walk, three-way file merge, the driver's
methods, the stage that merges task branches, and a run's repository from its seed to the integrated tree.

**Client walks** (`RunHistory`, `HistoryTimeline`, `HistoryWalk`, `Session`, `SessionRenewal`,
`SessionEviction`, `SessionValidity`). The run store with its history pages; what fetches see while runs
are created and units are rolled back; the client's traversal of those pages; token renewal in the web
process, with lost answers and a bounded cache, and how long the tokens it hands out still last.

`Base` holds strings in byte order, (time, id) keys, sorting, and the error kinds.

## What the model assumes

- Tokens of claim epochs are fresh nonces and commit hashes are free of collisions (the creation number
  is part of what is hashed). The refresh-token results assume a provider that rotates tokens (section 6
  of RFC 6749, section 4.14 of RFC 9700).
- Times, counters and sizes are unbounded integers except where a width matters: the backoff loop is
  checked in 64 bits, and the history walk keeps JavaScript's largest safe integer.
- Planner, sandbox, sink and provider answer arbitrarily. Clocks are parameters; only the lease
  intervals and the renewal theorem need them not to run backwards.
- All workers of one deployment use the same attempt limit.
- Epochs are identified by run and generation. A rolled-back acquisition gives its generation away again, so
  after a rollback two epochs can share it; `DispatchRollback.Crowd` keeps both and lets both go on.
- A unit of work is one step of the dispatch protocol, isolated from every other writer; see below.
- In `OutboxProtocol` an enqueue is committed when it is published: no unit that holds one is rolled back
  after its row was leased. A lease inside such a unit could deliver a message whose enqueue then vanishes.
- Run ids are never reused, not even after a rollback; only the converse half of `ServesIff` needs it.

## What turned out differently from what one might expect

- The unit mutex excludes other units, not other writers and not readers. While a unit is open, terminal run
  writes, claim operations and all reads go on beside it, and what the unit itself wrote can be read; its
  rollback undoes all of that. `NoRunIsLost` holds with units isolated. Over every rollback and every
  continuation, a run is lost exactly when at the rollback some epoch has seen it finished and is about to
  complete its claim, while it becomes unfinished and claimed by that epoch again
  (`DispatchRollback.RollbackLosesIff`). So nothing is lost unless the run was finished while the unit was
  open (`DispatchLosses.RollbackWithoutFinishIsHarmless`). It happens in two ways, both reached. A worker fails
  its run outside any unit while some unit is open
  (`DispatchLosses.RollbackOverAFailureLosesTheRun`, `DispatchWitnesses.ALostRunIsReached`). Or a worker that was
  delayed past its lease converges the run inside its own unit, the holder of the claim reloads the run before
  that unit fails, and takes it for finished (`DispatchLosses.UncommittedConvergenceLosesTheRun`,
  `DispatchOverlap.AnUncommittedOutcomeIsReached`).
- Only the outermost unit is undone. A unit inside another one joins it, so if the caller swallows its error,
  what it wrote is committed (`UnitSemantics.SwallowedFailureCommits`).
- History pages are read inside units too. A fetch that sees a run whose unit is then rolled back makes the
  next one see a shorter history, and the walk can stop with a stall or return a run that never was
  committed (`HistoryWalk.UncommittedRunStalls`, `HistoryWalk.UncommittedRunIsReturned`,
  `HistoryWalk.RolledBackStartStalls`). Fetches see growing histories exactly when no fetch that saw such a
  run is followed by another (`HistoryTimeline.ServesIff`), in particular when no fetch falls inside a unit
  that is rolled back (`HistoryTimeline.StoreServes`).
- A copy is bumped before its update is refused. The bumped copy would pass the version check exactly when
  the run has moved on by one version (`DispatchResults.BumpedCopyPassesIff`), and a state is reached where
  it would overwrite a failed run (`DispatchWitnesses.ABumpedCopyOverwrites`). Only abandoning such copies
  saves it.
- Cancelling a run leaves its thread where it is exactly while the thread is under review
  (`DispatchResults.CancellationRoutesThread`).
- A pending run's thread is always planning, so the branches of the exhaustion path for executing or ready
  threads are never taken (`DispatchResults.OneActiveRunPerThread`).
- A comment says the acquisition and heartbeat times of a runnable claim are null
  (internal/domain/runclaim.go); releasing leaves them set, and the model follows the code.
- Publishing a known message id under a new dedup key makes the id index lose a row: the views stay aligned
  exactly when the key was known or the id is new (`OutboxStore.OutboxRepository.Publish`).
- Attempts are not bounded by the cap, recorded failures are (`OutboxRow.AttemptsMayExceedTheCap`,
  `OutboxRow.FailuresAreBounded`). Two dispatchers under one worker id can disagree with the store about
  the death of any row below its cap (`OutboxRow.SharedWorkerIdsCanDisagree`), and they disagree
  exactly when the leases in between, counted anew after a requeue, put the row on the other side of its cap
  (`OutboxRow.VerdictsDifferIff`).
- The merge cannot tell an empty file from an absent one. Merging a branch into its unchanged base
  reproduces the branch exactly when every empty file of the branch is one of the base and every empty file
  of the base is still in the branch (`TreeMerge.MergeReproducesIff`).
- An event that cannot be serialized still consumes a sequence number (`EventLog.EventRepository.Append`).
- With token lifetimes above the 45 second leeway, a request presents a redeemed refresh token exactly when
  the cache has no entry for its session and its cookie still carries the redeemed token
  (`SessionRenewal.ReplayIffUncached`). That does not happen within 512 renewed sessions
  (`SessionRenewal.NoTokenIsReplayed`); 513 renewals suffice for every such lifetime
  (`SessionEviction.EvictionReplays`). For every lifetime within the leeway it happens without any eviction
  (`SessionRenewal.ShortLifetimesReplay`). These results count tokens whose answer arrived. After a lost
  answer the same token is presented again in any case (`SessionRenewal.LostAnswersReplay`); over every run
  the provider has already spent a presented token exactly when an answer to it was lost or the condition
  above holds (`SessionRenewal.SpentIffLostOrUncached`).

## Model

| member | source | states |
|---|---|---|
| Lifecycle.TerminalIsAbsorbing | internal/domain/run.go:34-62 | A run status is terminal exactly when it has no successor; every other status can be cancelled; all but pending can fail |
| Lifecycle.RunPathIsShort | internal/domain/run.go:34-44 | A status history along the table has at most seven entries and only its last can be terminal |
| Lifecycle.RunMovesOneStage | internal/domain/run.go:34-44 | A run moves on by exactly one stage, except that executing may skip integrating, and completes only from reporting |
| Lifecycle.PlanningEntry | internal/domain/thread.go:43-57 | A thread can enter planning exactly from idle or awaiting input |
| Lifecycle.ThreadEntries | internal/domain/thread.go:43-57 | For every pair of statuses the edge exists exactly when the source is among those the target can be entered from |
| Claims.CollectEligible | internal/store/memory/runclaims.go:91-96 | The collected rows are exactly the eligible ones, each once, with their sort keys |
| Claims.SelectBatch | internal/store/memory/runclaims.go:91-105 | Collecting, sorting and truncating yields the first eligible rows in (creation time, run) order |
| Claims.LeastEligible | internal/store/postgres/runclaims.go:157-171 | The single-row statement selects the least eligible row, and none only when none is eligible |
| Claims.AcquiredIsIneligible | internal/store/memory/runclaims.go:200-225 | A row acquired for a positive lease leaves the eligible rows at that instant, the others stay |
| Claims.RoundIsOldest | internal/store/memory/runclaims.go:91-105 | A batch is full whenever it leaves an eligible row, and what it leaves was created later, or at the same time under a greater id |
| Claims.ValidRefIff | internal/domain/runclaim.go:99-130 | A credential is well formed exactly when its owner has 1 to 256 characters, none of them a control character, its token 43 and its generation is positive |
| Claims.RunClaimRepository.Create | internal/store/memory/runclaims.go:19-38 | A claim is created runnable, once per run, or the error is reported and nothing changes |
| Claims.RunClaimRepository.Acquire | internal/store/memory/runclaims.go:57-81 | Acquisition starts a new epoch with the next generation and attempt, only on an eligible claim, and its lease ends at now + lease |
| Claims.RunClaimRepository.Heartbeat | internal/store/memory/runclaims.go:118-140 | Only the current credential, and only before its deadline, extends the lease, to now + extension |
| Claims.RunClaimRepository.Release | internal/store/memory/runclaims.go:142-154 | Only the current credential makes the claim runnable again |
| Claims.RunClaimRepository.Complete | internal/store/memory/runclaims.go:156-170 | Only the current credential deletes the claim |
| Claims.RunClaimRepository.CleanupTerminal | internal/store/memory/runclaims.go:172-186 | A claim is deleted without credential only when its run is terminal |
| Claims.RunClaimRepository.AcquireNext | internal/store/memory/runclaims.go:83-116 | A batch acquires exactly the first eligible rows in order and returns them; invalid requests change nothing |
| Claims.RunClaimRepository.AcquireNextOneByOne | internal/store/postgres/runclaims.go:146-181 | Claiming the least eligible row again and again gives the same rows and the same table as the batch, for every table, limit and positive lease |
| ClaimHistory.NeverRevived | internal/store/memory/runclaims.go:188-198 | No operation makes a refused credential acceptable again |
| ClaimHistory.NeverRevivedAfter | internal/store/memory/runclaims.go:57-198 | The same over every history of operations |
| ClaimHistory.EpochEnds | internal/store/memory/runclaims.go:142-225 | An epoch ends exactly by its own release or completion, a cleanup of its run, or another acquisition |
| ClaimHistory.EndedEpochStaysFenced | internal/store/memory/runclaims.go:118-198 | In every history an ended epoch's credential is refused by all later heartbeats, releases and completions |
| ClaimHistory.LeasesAreDisjoint | internal/domain/runclaim.go:132-150 | In every history the intervals two epochs of one run asked for, from acquisition to last acquisition or heartbeat plus the time asked, do not overlap |
| ClaimHistory.LeaseLastsAsAsked | internal/domain/runclaim.go:139-150 | Over every history in which the holder leaves its claim alone: until the time it asked for has passed its credential stays accepted, its heartbeat would be and nobody else can acquire the run; from then on, if nobody has, anybody can, and no heartbeat is accepted |
| ClaimHistory.AcceptedIffOpen | internal/store/memory/runclaims.go:188-198 | In every history a credential is accepted exactly when it is, in every part, the one of the epoch now open, and the row shows that epoch's acquisition, last heartbeat and deadline |
| ClaimHistory.ChangesAreStamped | internal/store/memory/runclaims.go:214-235 | A claim keeps its creation time, and an operation that changes it leaves its own time |
| ClaimHistory.GenerationCountsAttempts | internal/store/memory/runclaims.go:214-225 | In every history a claim's generation equals its attempts |
| ClaimHistory.StepKeepsInv | internal/store/memory/runclaims.go:19-233 | Every claim operation keeps the counters and the lease intervals consistent |
| ClaimHistory.ReachableInv | internal/store/memory/runclaims.go:19-233 | The same over every history |
| ClaimHistory.RoundIsSingleAcquisitions | internal/store/memory/runclaims.go:106-116 | A batch leaves the table its rows acquired one at a time would leave |
| DispatchInvariant.WriteRunKeeps | internal/orchestration/engine.go:219-230 | A version-checked run write from any past copy keeps the store invariant, extends the history along the table and leaves every other epoch's knowledge valid |
| DispatchInvariant.WriteThreadKeeps | internal/orchestration/engine.go:238-253 | The same for a thread write that keeps an active run's thread working |
| DispatchInvariant.StartableThreadIsFree | internal/orchestration/engine.go:130-176 | A thread that can enter planning has no active run |
| DispatchInvariant.StartKeeps | internal/orchestration/engine.go:158-188 | Starting a run creates run, key, claim and thread move together and keeps the invariant |
| DispatchInvariant.ClaimsKeep | internal/worker/worker.go:178-211 | Claim operations that drop only claims of finished runs keep the invariant |
| DispatchInvariant.EvolutionKeepsEpoch | internal/store/memory/runs.go:48-63 | What an epoch knows about its copies survives every step of anybody else |
| DispatchInvariant.AnnounceKeeps | internal/orchestration/engine.go:271-286 | Emitting the status event of the last history entry keeps events and history in step |
| DispatchSafety.ReadOk | internal/orchestration/execute.go:97-120 | Reading run and thread gives copies the later steps may rely on |
| DispatchSafety.ClaimStepOk | internal/worker/worker.go:297-347 | Releasing, completing and cleaning up a claim never loses an unfinished run |
| DispatchSafety.AdvanceRunOk | internal/orchestration/execute.go:176-214 | Moving the run to the next stage is safe from any copy |
| DispatchSafety.AdvanceThreadOk | internal/orchestration/execute.go:174-298 | Moving the thread along with its run is safe |
| DispatchSafety.FinishOk | internal/orchestration/integrate.go:191-211 | Failing or cancelling a run outside a unit is safe, and its event is emitted at most once |
| DispatchSafety.RouteOk | internal/orchestration/integrate.go:213-220 | Wherever the thread of a finished run is sent along its table, the invariant survives; where it is sent is stated by the results of DispatchOutcomes |
| DispatchSafety.ConvergeOk | internal/orchestration/recovery.go:44-78 | Converging an interrupted or exhausted run to a terminal status is safe |
| DispatchSafety.EmitOk | internal/orchestration/integrate.go:204-211 | Whether the terminal event is emitted or lost, the invariant survives; which happens is stated by the results of DispatchOutcomes |
| DispatchSafety.StageOk | internal/orchestration/execute.go:97-216 | Every choice at every pipeline stage is safe |
| DispatchSafety.EpochStepOk | internal/worker/worker.go:178-391 | Every step of an epoch, wherever it stands and whatever fails, keeps the store invariant and everybody else's knowledge |
| DispatchTheorems.AcquireKeeps | internal/worker/worker.go:147-176 | Acquiring a claim opens an epoch within the invariant |
| DispatchTheorems.BeatKeeps | internal/worker/worker.go:266-292 | Heartbeats and lost leases keep the invariant |
| DispatchTheorems.StartCommitKeeps | internal/orchestration/engine.go:158-188 | Committing a start request from a possibly stale thread copy keeps the invariant |
| DispatchTheorems.EpochStepKeeps | internal/worker/worker.go:178-391 | An epoch step keeps the invariant of the whole system, including the events and the calls made |
| DispatchTheorems.NextKeeps | internal/worker/worker.go:147-391 | Every action of every participant keeps the system invariant |
| DispatchTheorems.ReachableInv | internal/worker/worker.go:147-391 | The invariant holds in every reachable state |
| DispatchResults.NoRunIsLost | internal/worker/worker.go:178-211 | In every reachable state a run without a claim is terminal |
| DispatchResults.OneActiveRunPerThread | internal/orchestration/engine.go:130-188 | In every reachable state a thread has at most one unfinished run, and then is planning, ready, executing or reviewing; a pending run's thread is planning |
| DispatchResults.StartsAreIdempotent | internal/orchestration/engine.go:130-156 | Two runs of one thread never share a start key |
| DispatchResults.RunHistoryFollowsTable | internal/store/memory/runs.go:48-63 | Whatever stale copies try, a run's stored history is a path of the table that ends in its status |
| DispatchResults.ThreadHistoryFollowsTable | internal/store/memory/threads.go:36-51 | The same for threads |
| DispatchResults.TerminalIsForever | internal/domain/run.go:34-62 | A terminal run never changes status again, over every continuation |
| DispatchResults.EventsFollowHistory | internal/orchestration/integrate.go:191-211 | The status events of a run are its history in order with at most the terminal one missing, so at most one terminal event exists |
| DispatchResults.ExecuteIsBounded | internal/worker/worker.go:192-211 | All workers together execute a run at most max-attempts times |
| DispatchResults.GenerationIsAttempts | internal/store/memory/runclaims.go:214-225 | Generation equals attempts in every reachable claim |
| DispatchResults.PipelineMovesAreLegal | internal/orchestration/execute.go:97-216 | The next move, a failure and a cancellation planned at any stage are edges of their tables |
| DispatchResults.CancellationRoutesThread | internal/orchestration/integrate.go:250-282 | Cancelling routes the thread along an edge, except exactly when it is under review |
| DispatchResults.BumpedCopyPassesIff | internal/domain/run.go:119-130 | For every past copy of a run that moved on: its update is refused, and the copy that was bumped before the refusal passes a further update exactly when it is one version behind and the edge exists, then overwriting the status |
| DispatchOutcomes.UndisturbedExecute | internal/orchestration/execute.go:97-216 | In every reached state an undisturbed epoch that acquired a pending run within its budget takes it through the whole pipeline: the exact history of the run, all of it announced, the exact moves of the thread up to ready for review, or failed if the review blocks, and no claim left |
| DispatchOutcomes.UndisturbedEnd | internal/orchestration/integrate.go:119-282 | In every reached state an undisturbed epoch that completes, fails or cancels its run at any stage leaves exactly that outcome, every status announced, the claim gone and the thread where the outcome sends it |
| DispatchOutcomes.LostEventEnd | internal/orchestration/integrate.go:191-282 | If the event of the outcome is lost it alone is missing; a cancelled run's thread is routed all the same, any other thread stays where it was, and the claim can be given up |
| DispatchOutcomes.UndisturbedReturn | internal/worker/worker.go:297-347 | In every reached state an undisturbed holder that returns with its run unfinished hands the claim back: anybody can acquire it at once, its own credential is refused, and runs, threads and events are as they were |
| DispatchOutcomes.ReloadIs | internal/worker/worker.go:297-347 | Reloading after the execution only reads: a lost lease ends the epoch, a finished run leads to completing the claim, any other to releasing it |
| DispatchOutcomes.NoOtherEnd | internal/orchestration/integrate.go:174-282 | Failing or cancelling at a stage that has no such exit changes nothing |
| DispatchOutcomes.FaultFreeDispatchSettles | internal/orchestration/exhausted.go:27-89 | In every reached state an undisturbed dispatch settles a run that is finished, interrupted or out of budget: a finished one loses only its claim; a pending one is cancelled and its thread waits for input; any other fails, and its thread fails with it or, if it was ready to execute, needs attention; every status is announced |
| DispatchWitnesses.PlanningIsReached | internal/orchestration/execute.go:97-148 | For all names, every clock and every attempt limit eight actions start, claim and load a run and bring its epoch to planning |
| DispatchWitnesses.ALostRunIsReached | internal/orchestration/integrate.go:191-211 | Some action sequence leads to a state in which a unit begins, a worker fails its run meanwhile, and the rollback of the unit loses the run |
| DispatchWitnesses.TakeOverIsReached | internal/orchestration/recovery.go:44-78 | Some action sequence lets a lease run out and a second worker fail the interrupted run while the first still holds its copy |
| DispatchWitnesses.ABumpedCopyOverwrites | internal/orchestration/engine.go:219-230 | In that state the first worker's next write is refused, but its bumped copy would turn the failed run into an integrating one |
| DispatchRollback.RollbackLosesIff | internal/store/memory/transactor.go:23-43 | For every reached state in which a unit begins, its own uncommitted write, everything that can go on beside it, its rollback and every run: some continuation loses the run exactly when an epoch that saw it finished is about to complete its claim, while the rollback made it unfinished and claimed by that epoch again |
| DispatchRollback.NextSteady | internal/worker/worker.go:147-391 | After a rollback every action keeps the run's history growing, finished runs finished, refused credentials refused and the copies Execute writes from faithful, and loses the run exactly by completing its claim too early |
| DispatchRollback.EpochStepLosesIff | internal/worker/worker.go:297-347 | The same for one step of one epoch, wherever it stands |
| DispatchRollback.AlongsideVouched | internal/orchestration/integrate.go:191-211 | Whatever goes on beside an open unit, the copies its epochs write from agree with the history at the unit's beginning |
| DispatchRollback.NothingIsLost | internal/worker/worker.go:147-391 | From such a state with no completion pending that could do harm, no continuation ever loses the run, also with several epochs of one generation |
| DispatchLosses.RollbackKeeps | internal/store/memory/transactor.go:23-43 | A rollback over no run or thread write and no acquisition keeps the system invariant |
| DispatchLosses.RollbackWithoutFinishIsHarmless | internal/store/memory/transactor.go:23-43 | If the run was not finished while the unit was open, no continuation ever loses it, whatever acquisitions, heartbeats, releases and completions were undone |
| DispatchLosses.RollbackOverAFailureLosesTheRun | internal/orchestration/integrate.go:191-211 | In every reached state with a live epoch that can fail its run: failing it and reloading it while some unit is open, then the rollback and the completion of the claim, lose the run |
| DispatchLosses.UncommittedConvergenceLosesTheRun | internal/orchestration/recovery.go:44-78 | In every reached state with an epoch about to converge a run and another one, holding its claim, about to reload it: reloading between the terminal write and the failure of the converging unit loses the run |
| DispatchOverlap.AnUncommittedOutcomeIsReached | internal/worker/worker.go:297-347 | Some action sequence leads to such a state, for all names and every attempt limit of at least two |
| OutboxRow.StepFollowsTable | internal/domain/outbox.go:33-39 | Every event keeps a row's identity, its parity and its timestamps, moves it along a declared edge (re-leasing stays leased), and leaves terminal rows alone |
| OutboxRow.HistoryKeeps | internal/store/memory/outbox.go:71-299 | The same over every sequence of events; the generation never falls |
| OutboxRow.CredentialWorksOnce | internal/store/memory/outbox.go:268-299 | After an operator mutation under a generation no later mutation under it is applied, whatever happens between |
| OutboxRow.DeadAcceptsCurrentGeneration | internal/store/memory/outbox.go:268-279 | A mutation is applied exactly to a dead row under its current generation |
| OutboxRow.FailuresAreBounded | internal/store/memory/outbox.go:119-144 | In one delivery lifecycle at most max-attempts failures are recorded, over every sequence of events |
| OutboxRow.NewRowIsBudgeted | internal/store/memory/outbox.go:50-61 | A published row starts that lifecycle with its whole budget |
| OutboxRow.DiesAtTheCap | internal/store/memory/outbox.go:119-144 | A message refused every time dies at its max-attempts-th try and not before |
| OutboxRow.RequeuedStartsAnew | internal/store/memory/outbox.go:281-291 | A requeued dead letter can be leased from that moment on and has all its tries again |
| OutboxRow.RetryWaits | internal/store/memory/outbox.go:119-144 | After a failure below the cap, whatever is tried in between, a lease applies exactly from the failure plus the pause on |
| OutboxRow.PublishedIsDue | internal/store/memory/outbox.go:50-61 | A published row can be leased exactly from its publication on |
| OutboxRow.LeaseExcludes | internal/store/memory/outbox.go:71-102 | Unless its worker settles it, a leased row can be leased again exactly from the end of the lease on, whatever is tried before |
| OutboxRow.AttemptsMayExceedTheCap | internal/store/memory/outbox.go:71-102 | From every due row attempts can grow by any number without a single recorded failure |
| OutboxRow.LeaseIsCurrent | internal/store/memory/outbox.go:71-144 | While a worker takes nothing more, a row still leased to it is the row it took |
| OutboxRow.VerdictsAgree | internal/outbox/dispatcher.go:134-157 | The dead-letter verdict from the leased snapshot is the store's, whatever happened between |
| OutboxRow.SharedWorkerIdsCanDisagree | internal/outbox/dispatcher.go:134-157 | For every due row below its cap and every worker, further leases under the same worker id make the store dead-letter what the snapshot calls alive |
| OutboxRow.VerdictsDifferIff | internal/outbox/dispatcher.go:134-157 | For every sequence of events between lease and failure the verdicts differ exactly when leases since the last requeue and the attempts they start from lie on the other side of the cap than the snapshot; the same worker id then leased in between |
| OutboxTable.VictimsAreEligible | internal/store/memory/outbox.go:320-394 | Every victim was delivered or discarded at least its class's horizon before the cutoff, a class with horizon zero has none, and victims are pairwise different and at most limit many |
| OutboxTable.AllEligibleIff | internal/store/memory/outbox.go:373-394 | The rows a round may take are exactly the delivered and discarded ones past their horizon |
| OutboxTable.DeliveredIsKept | internal/store/memory/outbox.go:104-117 | A row acknowledged at a time is past its horizon exactly from that time plus the horizon on, whatever is tried on it |
| OutboxTable.DiscardedIsKept | internal/store/memory/outbox.go:239-261 | The same for a discarded row |
| OutboxTable.SweepTakesLimit | internal/store/memory/outbox.go:332-352 | A round takes exactly as many rows as limit and eligible rows allow |
| OutboxTable.VictimsAreOldest | internal/store/memory/outbox.go:332-352 | A victim reached its terminal time before every row of its class that is past the horizon and stays, or at the same time under a smaller id; no discarded row goes while a delivered one past its horizon stays |
| OutboxTable.SweepRound | internal/store/memory/outbox.go:354-367 | A round removes its victims and nothing else; rows that are not terminal stay |
| OutboxTable.RoundsTake | internal/store/memory/outbox.go:320-368 | After n rounds at one instant n times the limit is gone, or everything |
| OutboxTable.RoundsEmpty | internal/store/memory/outbox.go:320-368 | The eligible rows are gone from round ceil(eligible / limit) on and not before |
| MemoryStore.AddKeeps | internal/store/memory/outbox.go:50-65 | Adding under a new dedup key keeps the views aligned exactly when the id is new |
| MemoryStore.PutKeeps | internal/store/memory/outbox.go:104-144 | A write in place keeps the views aligned and is the write of that table entry |
| MemoryStore.AlignedViews | internal/store/memory/outbox.go:39-66 | Aligned views denote one duplicate-free set of rows with ids and dedup keys one to one |
| OutboxSweep.SelectVictims | internal/store/memory/outbox.go:373-394 | The selection lists exactly the objects of a class whose terminal time plus the horizon is not after the cutoff, oldest first |
| OutboxSweep.SelectionKeys | internal/store/memory/outbox.go:373-394 | With aligned views its keys are the table's eligible keys in ascending order |
| OutboxSweep.DropAligned | internal/store/memory/outbox.go:354-367 | Removing rows with their keys keeps the views aligned |
| OutboxStore.OutboxRepository.Publish | internal/store/memory/outbox.go:39-66 | Enqueues once per dedup key, rejects attempt limits outside 1..100, and keeps the views aligned exactly when the key was known or the id is new |
| OutboxStore.OutboxRepository.Lease | internal/store/memory/outbox.go:71-102 | Leases as many due rows as the limit allows, oldest first, counts the attempt, touches nothing else and returns their snapshots |
| OutboxStore.TakenTable | internal/store/memory/outbox.go:88-100 | In the table exactly the rows of the batch were taken |
| OutboxStore.SelectBatch | internal/store/memory/outbox.go:75-87 | The batch holds the oldest due rows, each once |
| OutboxStore.EarlierIsLeasedFirst | internal/store/memory/outbox.go:75-87 | Of two due rows with whatever past, a batch holds the one published later only if it holds the other |
| OutboxStore.OutboxRepository.MarkDelivered | internal/store/memory/outbox.go:104-117 | Only the current lessee acknowledges; exactly that row becomes delivered in every view |
| OutboxStore.OutboxRepository.FailWithBackoff | internal/store/memory/outbox.go:119-144 | Only the current lessee records a failure; at the cap the row is dead as of now, below it the row can be leased exactly from now + pause on; the error is kept up to 512 characters |
| OutboxStore.OutboxRepository.RequeueDeadLetter | internal/store/memory/outbox.go:215-237 | Applied exactly to a dead row of the tenant under its generation, with the typed refusal otherwise |
| OutboxStore.OutboxRepository.DiscardDeadLetter | internal/store/memory/outbox.go:239-261 | The same for discarding |
| OutboxStore.OutboxRepository.Stats | internal/store/memory/outbox.go:146-165 | Counts the rows of each status; together they are all rows |
| OutboxStore.ChooseVictims | internal/store/memory/outbox.go:332-352 | Delivered victims fill the limit first; with aligned views the victims are the table's |
| OutboxStore.OutboxRepository.SweepRetention | internal/store/memory/outbox.go:320-368 | Accepts exactly limits 1 to 1000 and horizons that are not negative; removes from all views only rows past their horizon, as many as the limit and such rows allow, and reports their numbers; a dry run reports the same and changes nothing |
| EventLog.EventRepository.Append | internal/store/memory/events.go:12-47 | Numbers and stores the event and enqueues its delivery once, in one step |
| OutboxDispatcher.BackoffFor | internal/outbox/dispatcher.go:166-181 | The doubling loop computes min(base * 2^min(attempts - 1, 16), 24h) and stays within 64 bits |
| OutboxDispatcher.BackoffIsMonotone | internal/outbox/dispatcher.go:166-181 | More attempts never shorten the wait, which stays between min(base, 24h) and 24h |
| OutboxDispatcher.DispatchOnce | internal/outbox/dispatcher.go:102-161 | The batch is the oldest due rows up to the batch size and the messages are their snapshots; starting from the table with exactly that batch leased, every message up to the first cancellation goes where its sink reply sends it, a refused one below its cap can be leased exactly from its refusal plus min(base * 2^min(attempts - 1, 16), 24h) on, nothing else changes, and the reported verdicts are what the store did |
| OutboxDispatcher.Settle | internal/outbox/dispatcher.go:122-157 | One message is acknowledged, or failed with its backoff, and the outcome named; a message scheduled again can be leased exactly from then plus its backoff on; a refused event changes nothing and is named so |
| OutboxDispatcher.NoBatchBefore | internal/outbox/dispatcher.go:102-161 | A row that waits for its time is in no batch before it, whatever happened to it in between |
| OutboxProtocol.DoKeeps | internal/outbox/dispatcher.go:102-161 | Every action of every participant keeps rows, counts and the dispatchers' snapshots consistent |
| OutboxProtocol.ReachableInv | internal/outbox/dispatcher.go:102-161 | That holds in every reachable state |
| OutboxProtocol.NoDeliveryIsLost | internal/store/memory/outbox.go:146-165 | In every reachable state enqueued rows equal the five status classes plus the swept rows, and delivered rows were accepted by the sink |
| OutboxProtocol.OnlyTerminalRowsLeave | internal/store/memory/outbox.go:320-368 | Rows leave only through a sweep and only delivered or discarded |
| OutboxProtocol.SettlementsAgree | internal/outbox/dispatcher.go:134-157 | Over every interleaving a recorded failure is dead-lettered exactly when the dispatcher's snapshot says so |
| UnitOfWork.MakeBackup | internal/store/memory/snapshot.go:40-145 | The backup consists of fresh objects with the same contents and the same aliasing |
| UnitOfWork.CloneOutbox | internal/store/memory/snapshot.go:77-96 | One clone per row keeps the three views on the same clones |
| UnitOfWork.CloneIndex | internal/store/memory/snapshot.go:82-95 | An index entry of the clone denotes the same place of the slice |
| UnitOfWork.Restore | internal/store/memory/snapshot.go:149-268 | The live state becomes the backup, collection by collection |
| UnitOfWork.SameTable | internal/store/memory/snapshot.go:77-96 | Views of the same shape hold the same rows by id |
| UnitOfWork.SameAlignment | internal/store/memory/snapshot.go:77-96 | Views of the same shape are aligned together |
| UnitOfWork.SameWrites | internal/store/memory/snapshot.go:66-96 | The same write on two views of the same shape keeps their shapes equal |
| UnitOfWork.WriteIsSeenByAll | internal/store/memory/snapshot.go:66-96 | After a restore a write through the id index is seen in the slice and through the dedup index |
| Transactor.Runner.Do | internal/store/memory/transactor.go:23-43 | The result is one the body can end with; a body that errors or panics leaves every collection and counter, and the aliasing, as before; with paired keys contents and result are those the unit has in the semantics of programs, so a unit that succeeds keeps exactly its operations' effects and one whose operation is refused keeps none |
| Transactor.Runner.Perform | internal/store/memory/outbox.go:39-368 | An operation reports failure exactly when the store refuses it, and with paired keys has its effect on the contents and keeps the three views aligned |
| Transactor.Runner.Exec | internal/store/memory/transactor.go:23-43 | For every program and nesting, with paired keys: contents and result are those of the semantics of programs, and the three views stay aligned; for every store the result is one the program can end with, and an outermost unit that does not succeed restores everything |
| Transactor.Runner.Undo | internal/store/memory/snapshot.go:149-268 | Putting a backup back gives the contents and the shape of the store it was made of |
| Transactor.BatchOfTable | internal/store/memory/outbox.go:71-102 | With aligned views a leased batch of objects is a batch of oldest due rows of the table |
| UnitSemantics.RunsEnd | internal/store/memory/transactor.go:23-43 | A program that must fail or panic does, and one that cannot does not |
| UnitSemantics.NestedUnitsJoin | internal/store/memory/transactor.go:23-43 | Inside a unit the marks of further units mean nothing, for every program |
| UnitSemantics.UnitIsAllOrNothing | internal/store/memory/transactor.go:23-43 | An outermost unit succeeds exactly as its body without unit marks does, and otherwise ends as that does with the contents as before |
| UnitSemantics.SwallowedFailureCommits | internal/store/memory/transactor.go:23-43 | A joined unit whose error is swallowed is not undone: the outer unit commits what it wrote |
| UnitSemantics.RunsOnlyOneWay | internal/store/memory/transactor.go:23-43 | Without leases, which may choose among equally old rows, a program determines contents and result |
| Transactor.NewKeyNewId | internal/store/memory/events.go:26-43 | With ids and dedup keys paired one to one a new key is a new id |
| Transactor.EventsCanBePaired | internal/store/memory/events.go:26-32 | The keys Append makes are such a pairing |
| CommitGraph.Walk | internal/scm/memory.go:275-287 | The worklist walk ends and visits exactly the ancestors |
| CommitGraph.MergeBase | internal/scm/memory.go:275-305 | Both walks end; the result is the common ancestor created last |
| CommitGraph.MergeBaseIsBest | internal/scm/memory.go:271-305 | It is unique, independent of argument order, and no other common ancestor descends from it |
| CommitGraph.CommonIsNotEmpty | internal/scm/memory.go:54-74 | Two commits of one repository always share an ancestor |
| CommitGraph.AncestorIsBase | internal/scm/memory.go:275-305 | An ancestor of a commit is their merge base |
| TreeMerge.MergeFiles | internal/scm/memory.go:163-194 | The file loop yields the three-way merge at every path and exactly the conflicting paths, sorted |
| TreeMerge.IntegrationTheorem | internal/orchestration/integrate.go:31-50 | Composing trees cut from one base is clean exactly when no two change a path to different contents, and then gives the base overlaid with every change |
| TreeMerge.OrderDoesNotMatter | internal/orchestration/integrate.go:31-38 | Every merge order is clean together and leaves the same contents at every path |
| TreeMerge.OrderDoesNotMatterForTrees | internal/orchestration/integrate.go:31-38 | Without empty files in the base the composed trees are equal |
| TreeMerge.MergeReproducesIff | internal/scm/memory.go:334-340 | Merging into the unchanged base reproduces a branch exactly when every empty file of the branch is one of the base and every empty file of the base is still in the branch |
| Repository.AdvanceKeeps | internal/scm/memory.go:245-269 | A new commit keeps the graph and every old commit's ancestors |
| Repository.MergesKeeps | internal/scm/memory.go:136-203 | A merge touches no branch but its target and nothing at all on conflict |
| Repository.BaseOfCut | internal/scm/memory.go:275-305 | Lines that share only the base's history have the base as merge base |
| Repository.CutBranch | internal/scm/memory.go:90-106 | A branch created at the base keeps the branches cut |
| Repository.CutCommit | internal/scm/memory.go:108-134 | A commit on any branch keeps the branches cut |
| Integration.MergeComposes | internal/scm/memory.go:136-203 | Merging a cut branch composes its tree onto the target's over the cut base |
| Integration.MergeStaysApart | internal/scm/memory.go:136-203 | After the merge the target still shares only the base's history with the branches to come |
| Integration.ConflictIsContested | internal/orchestration/integrate.go:39-50 | A reported conflict is a path two trees changed differently |
| Integration.ProgressEnds | internal/orchestration/integrate.go:31-50 | Merged one after another, the trees give no conflict exactly when compatible, then their overlay, and only contested paths are reported |
| Scm.SafePathIff | internal/scm/memory.go:317-323 | A path is refused exactly when it is empty, only "./", absolute, or has two dots in a row or a backslash anywhere |
| Scm.ApplyChanges | internal/scm/memory.go:119-129 | Applies every change, or refuses the whole set exactly when some path is unsafe |
| Scm.Memory.Init | internal/scm/memory.go:54-74 | Creates a repository whose default branch holds the seed, or reports the error and changes nothing |
| Scm.Memory.Head | internal/scm/memory.go:76-88 | Returns the stored tip exactly when the branch exists |
| Scm.Memory.CreateBranch | internal/scm/memory.go:90-106 | Points a new branch at an existing tip and changes nothing else |
| Scm.Memory.CommitFiles | internal/scm/memory.go:108-134 | Commits the changed tree on top of the tip, or changes nothing |
| Scm.Memory.Merge | internal/scm/memory.go:136-203 | Merges over the unique merge base; a conflict reports every conflicting path and leaves the repository as it was |
| StageIntegrate.Integrate | internal/orchestration/integrate.go:26-56 | For branches cut from the default branch: conflicts are reported exactly for incompatible changes, otherwise the head tree is the base overlaid with all changes; in every case no branch but the integration branch moves, in particular not the default branch |
| RunRepository.StepKeepsCut | internal/orchestration/execute.go:391-430 | Creating a task branch, committing to it and commits of other repositories keep the branches cut from the seed |
| RunRepository.CutInAnyOrder | internal/orchestration/integrate.go:31-38 | Being cut from one base does not depend on the order in which the branches are listed |
| RunRepository.TaskBranchesAreCut | internal/orchestration/execute.go:391-430 | However tasks interleave, any selection of their branches in any order is cut from the seed, and the default branch stays on the seed files |
| RunRepository.Perform | internal/orchestration/execute.go:399-417 | The driver calls of a task have exactly the modelled effect on the run's repository and none on any other |
| RunRepository.IntegrateRun | internal/orchestration/integrate.go:26-56 | From any seed through any interleaving of tasks: integration fails exactly when its branch exists or a task branch does not, reports a conflict exactly when the tasks' changes to the seed files are incompatible, and otherwise ends on the seed overlaid with all of them |
| RunHistory.RunRepository.Create | internal/store/memory/runs.go:12-36 | Appends the run to its thread's history under the next number, once per key and id |
| RunHistory.RunRepository.Update | internal/store/memory/runs.go:48-63 | Replaces the run exactly under its version; a copy that keeps its identity keeps numbers and keys |
| RunHistory.RunRepository.GetByIdempotencyKey | internal/store/memory/runs.go:65-77 | Finds the run of a key exactly when one exists |
| RunHistory.RunRepository.ListByThread | internal/store/memory/runs.go:85-110 | Serves the next stretch of the history above the cursor with the total of the same snapshot |
| RunHistory.HistoryIsComplete | internal/store/memory/runs.go:12-36 | A thread's numbers are exactly 1..n and its history holds every run once |
| RunHistory.CreateKeepsDense | internal/store/memory/runs.go:26-35 | Creation keeps the numbers dense and extends the history by one |
| RunHistory.CreateKeepsKeys | internal/store/memory/runs.go:19-35 | Creation keeps idempotency keys and runs one to one |
| HistoryTimeline.CreateExtendsHistories | internal/store/memory/runs.go:26-35 | Creating a run extends its own thread's history and leaves every other one alone |
| HistoryTimeline.UpdateExtendsHistories | internal/store/memory/runs.go:48-63 | Updating a run moves no run in any history |
| HistoryTimeline.LastingExtends | internal/store/memory/snapshot.go:195-211 | Over any timeline of creations, updates and rollbacks, the history at a moment is extended by every later one unless a run of it is rolled back in between |
| HistoryTimeline.DirtyFetchesBreak | internal/orchestration/engine.go:158-176 | A fetch that saw a run of a unit which is then rolled back is not extended by any later fetch |
| HistoryTimeline.ServesIff | internal/store/memory/runs.go:85-110 | Fetches at increasing moments see histories that only grow exactly when no fetch that saw a run of a rolled-back unit is followed by another |
| HistoryTimeline.StoreServes | internal/store/memory/runs.go:85-110 | They do in particular when no fetch falls inside a unit that is rolled back |
| HistoryWalk.CollectRunHistory | apps/web/src/lib/runs.ts:85-143 | For every server the loop is the recursive traversal, and what it collects has no run twice and as many as the last answer promised; over histories that only grow it never reports a duplicate, a stall or a lost run, returns every run of its last fetch once and in order, and gives up only beyond its page cap, its growth cap or the safe integers |
| HistoryWalk.WalkServes | apps/web/src/lib/runs.ts:85-143 | The same of the traversal, from every prefix it can have collected |
| HistoryWalk.CollectedIsSound | apps/web/src/lib/runs.ts:85-143 | For every server, limit and collected prefix without repetition: a collected history has no run twice and exactly the promised number of runs, and the walk ends within its pages |
| HistoryWalk.UncommittedRunStalls | apps/web/src/lib/runs.ts:120-136 | For every page of runs: a first fetch with one run more that is gone at the second fetch ends the walk with no progress |
| HistoryWalk.UncommittedRunIsReturned | apps/web/src/lib/runs.ts:85-143 | A single fetch that sees a run of an open unit returns it, committed or not |
| HistoryWalk.RolledBackStartStalls | internal/store/memory/snapshot.go:195-211 | Every store whose thread fills exactly one page has a timeline with one rolled-back creation on which the walk stalls |
| Session.SelectsLatest | apps/web/src/lib/session.ts:162-174 | The later of cookie and cache is used while more than 45 seconds remain and renewed after that |
| Session.RememberedKeeps | apps/web/src/lib/session.ts:144-150 | Remembering keeps at most 512 keys, puts the new one last, keeps the order of the others and loses only the oldest key when full |
| Session.RenewedSessions.Remember | apps/web/src/lib/session.ts:144-150 | The map in place becomes the remembered map |
| Session.RenewedSessions.Renewal | apps/web/src/lib/session.ts:211-243 | The queued step decides again, presents the token of the latest state if needed, and remembers the result, whose expiry is the time of the answer plus the granted lifetime, at least one second and 300 without one |
| SessionRenewal.DoKeeps | apps/web/src/lib/session.ts:194-245 | Every login, presentation, answer and adoption keeps redeemed tokens superseded in the cache unless evicted |
| SessionRenewal.ReplaysIff | apps/web/src/lib/session.ts:211-229 | In such a state a request presents a redeemed token exactly when the cache has nothing for its session and its cookie carries one |
| SessionRenewal.ReplayIffUncached | apps/web/src/lib/session.ts:194-245 | The same in every state of every interleaving with lifetimes above the leeway |
| SessionRenewal.NoTokenIsReplayed | apps/web/src/lib/session.ts:194-245 | Over every interleaving with lifetimes above the leeway and at most 512 renewed sessions a presented token was not redeemed before |
| SessionRenewal.NothingEvictedWithinLimit | apps/web/src/lib/session.ts:137-150 | While at most 512 sessions were renewed nothing is evicted |
| SessionRenewal.ForwardIffAboveLeeway | apps/web/src/lib/session.ts:162-174 | A renewal always moves the expiry forward exactly when the granted lifetime, or 300 seconds without one, exceeds 45 seconds |
| SessionRenewal.ShortLifetimesReplay | apps/web/src/lib/session.ts:162-174 | For every lifetime within the leeway a run of logins and grants with that lifetime, without eviction, presents a redeemed token again |
| SessionEviction.EvictionReplays | apps/web/src/lib/session.ts:137-150 | For every lifetime above the leeway a run in which 513 people log in and renew when their tokens come within the leeway ends with a cookie that presents its redeemed token again |
| SessionValidity.FreshIsValid | apps/web/src/lib/session.ts:162-174 | Over every run of logins and grants with any lifetimes, a session used without renewal carries tokens minted earlier whose granted lifetime ends more than 45 seconds from now |
| SessionValidity.RenewedIsNearItsEnd | apps/web/src/lib/session.ts:162-174 | And one that is renewed has at most 45 seconds left |
| SessionRenewal.LostAnswersReplay | apps/web/src/lib/session.ts:222-229 | Every run in which a request can present its token goes on with the loss of the answer and the same cookie presenting the same spent token again |
| SessionRenewal.SpentIsRedeemedOrLost | apps/web/src/lib/session.ts:222-229 | In every run a token is spent exactly when its grant came back or an answer to it was lost |
| SessionRenewal.SpentIffLostOrUncached | apps/web/src/lib/session.ts:194-245 | In every run with lifetimes above the leeway a presented token was already spent exactly when an answer to it was lost, or the cache has nothing for the session and its cookie carries a redeemed token |

## Left out

- The HTTP server, authentication, the command line, configuration, metrics and migrations: plumbing and one-branch validation.
- PostgreSQL statements other than the AcquireNext loop; its ListByThread reads page and total in two statements, so the history walk is proved over the memory store.
- The git driver, the process sandbox, planner parsing, review rules and diff rendering: outside programs and text; they appear as arbitrary outcomes.
- Tasks inside a run, their retries and budgets: a retry creates the same branch again and conflicts, so nothing about retries succeeding holds.
- Listing of dead letters and events, and the operator requests' format checks other than the generation bound: easy members.
- Tenant checks, except where an operator mutation compares the tenant; claims, runs and sweeps are modelled for one tenant.
- The mutexes: each store method is one atomic step. Worker, engine and recovery code is a state machine over values, so the aliasing of run and thread copies inside one process is not modelled.
- The direct execution used by the command-line demo is not counted among the calls bounded by ExecuteIsBounded.
- A unit of work is atomic in the dispatch protocol; its rollback is proved separately on objects, and DispatchRollback adds the rollback over what others did since the unit began. There a unit's writes become readable all at once; the moments between two writes of one unit are not modelled.
- Transactor.Runner.Exec: its effect on the contents is stated for paired keys and aligned views, because a message id published under a second dedup key leaves a row no index finds; results and restoring are stated for every store.
- Entities that are only ever replaced (tenants, threads, runs and so on) are serialized values in the unit-of-work model, so the copying loops over their maps are assignments.
- StageIntegrate.Integrate: takes the task branches in the order given instead of sorting them by name, since the result is proved for every order; task status writes and the diff artifact are not modelled.
- RunHistory.RunRepository.Update: keeps the store valid only for a copy with the stored run's identity, because the source stores whatever sequence number and keys the copy carries.
- OutboxProtocol.NoDeliveryIsLost: a message id published again after its row was swept counts as a new delivery.
- Session.RenewedSessions.Renewal: the sealing and the size limit of the cookie are not modelled; a cookie that is not written is one of the cases of SessionRenewal.
- OutboxStore.OutboxRepository.Lease: a negative limit, which the dispatcher's configuration excludes, is not modelled.
