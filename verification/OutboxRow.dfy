/** One stored outbox message and everything that can happen to it. */
module OutboxRow {
  import opened Base

  datatype Status = Pending | Leased | Delivered | Dead | Discarded

  /** The declared edges of the delivery machine. */
  function Edges(s: Status): (r: set<Status>) {
    match s
    case Pending => {Leased}
    case Leased => {Delivered, Pending, Dead}
    case Delivered => {}
    case Dead => {Pending, Discarded}
    case Discarded => {}
  }

  predicate CanTransition(from: Status, to: Status) {
    to in Edges(from)
  }

  datatype Row = Row(
    id: string, dedup: string, tenant: string, envelope: string,
    status: Status, attempts: int, maxAttempts: int, availableAt: int,
    leasedBy: string, leaseUntil: Option<int>, lastError: string, createdAt: int,
    deliveredAt: Option<int>, generation: int, deadAt: Option<int>, discardedAt: Option<int>)

  function NewRow(id: string, dedup: string, tenant: string, envelope: string, maxAttempts: int, now: int): (r: Row) {
    Row(id, dedup, tenant, envelope, Pending, 0, maxAttempts, now, "", None, "", now, None, 0, None, None)
  }

  /** What the dispatcher and the operators do to a row, each with the store time at which
      it happens. */
  datatype Event =
    | Take(worker: string, now: int, until: int)
    | Ack(worker: string, now: int)
    | Fail(worker: string, now: int, retryIn: int, cause: string)
    | Requeue(tenant: string, expected: int, now: int)
    | Discard(tenant: string, expected: int, now: int)

  /** Pending and available, or leased with an expired lease. */
  predicate Due(r: Row, now: int) {
    || (r.status == Pending && r.availableAt <= now)
    || (r.status == Leased && r.leaseUntil.Some? && r.leaseUntil.value <= now)
  }

  const MAX_ERROR := 512

  function Truncated(cause: string): (t: string)
    ensures |t| <= MAX_ERROR && t <= cause
  {
    if |cause| > MAX_ERROR then cause[..MAX_ERROR] else cause
  }

  /** Why an operator mutation is refused, if it is. */
  function Classify(r: Row, expected: int): (e: Option<Error>) {
    if r.generation == 0 then Some(Invalid("transition"))
    else if r.generation != expected then Some(Conflict("stale_version"))
    else if r.status != Dead then Some(Invalid("transition"))
    else None
  }

  /** Whether the store applies the event to the row. */
  predicate Applies(r: Row, e: Event) {
    match e
    case Take(_, now, _) => Due(r, now)
    case Ack(worker, _) => r.status == Leased && r.leasedBy == worker
    case Fail(worker, _, _, _) => r.status == Leased && r.leasedBy == worker
    case Requeue(tenant, expected, _) => r.tenant == tenant && Classify(r, expected).None?
    case Discard(tenant, expected, _) => r.tenant == tenant && Classify(r, expected).None?
  }

  function Applied(r: Row, e: Event): (after: Row) {
    match e
    case Take(worker, _, until) =>
      r.(status := Leased, leasedBy := worker, leaseUntil := Some(until), attempts := r.attempts + 1)
    case Ack(_, now) =>
      r.(status := Delivered, deliveredAt := Some(now), leaseUntil := None)
    case Fail(_, now, retryIn, cause) =>
      var f := r.(leaseUntil := None, leasedBy := "", lastError := Truncated(cause));
      if r.attempts >= r.maxAttempts then f.(status := Dead, generation := r.generation + 1, deadAt := Some(now))
      else f.(status := Pending, availableAt := now + retryIn)
    case Requeue(_, _, now) =>
      r.(status := Pending, attempts := 0, availableAt := now, leaseUntil := None, leasedBy := "",
         generation := r.generation + 1, deadAt := None)
    case Discard(_, _, now) =>
      r.(status := Discarded, leaseUntil := None, leasedBy := "", generation := r.generation + 1,
         discardedAt := Some(now))
  }

  function Step(r: Row, e: Event): (after: Row) {
    if Applies(r, e) then Applied(r, e) else r
  }

  function Steps(r: Row, es: seq<Event>): (after: Row)
    decreases |es|
  {
    if es == [] then r else Steps(Step(r, es[0]), es[1..])
  }

  // ----- every row, over every history

  /** The generation is odd exactly while dead, and each status carries exactly its own
      timestamps; a discarded row keeps the time of its death. */
  predicate RowOk(r: Row) {
    && 1 <= r.maxAttempts && 0 <= r.attempts && 0 <= r.generation
    && (r.generation % 2 == 1 <==> r.status == Dead)
    && (r.leaseUntil.Some? <==> r.status == Leased)
    && (r.deliveredAt.Some? <==> r.status == Delivered)
    && (r.deadAt.Some? <==> r.status == Dead || r.status == Discarded)
    && (r.discardedAt.Some? <==> r.status == Discarded)
    && (r.status == Leased ==> r.attempts >= 1)
    && (r.status == Discarded ==> r.generation >= 2)
  }

  lemma NewRowOk(id: string, dedup: string, tenant: string, envelope: string, maxAttempts: int, now: int)
    requires 1 <= maxAttempts
    ensures RowOk(NewRow(id, dedup, tenant, envelope, maxAttempts, now))
  {
  }

  /** One event keeps the row well formed and its identity, and moves it along a declared
      edge; only re-leasing stays in place. */
  lemma StepFollowsTable(r: Row, e: Event)
    requires RowOk(r)
    ensures RowOk(Step(r, e))
    ensures var s := Step(r, e);
            && s.id == r.id && s.dedup == r.dedup && s.tenant == r.tenant && s.envelope == r.envelope
            && s.maxAttempts == r.maxAttempts && s.createdAt == r.createdAt
    ensures Applies(r, e) ==> CanTransition(r.status, Step(r, e).status) || (r.status == Leased && e.Take?)
    ensures !Applies(r, e) ==> Step(r, e) == r
    ensures r.status in {Delivered, Discarded} ==> Step(r, e) == r
    ensures Step(r, e).generation >= r.generation
  {
  }

  lemma {:induction false} HistoryKeeps(r: Row, es: seq<Event>)
    requires RowOk(r)
    ensures RowOk(Steps(r, es))
    ensures Steps(r, es).generation >= r.generation
    ensures Steps(r, es).maxAttempts == r.maxAttempts
    ensures r.status in {Delivered, Discarded} ==> Steps(r, es) == r
    decreases |es|
  {
    if es != [] {
      StepFollowsTable(r, es[0]);
      HistoryKeeps(Step(r, es[0]), es[1..]);
    }
  }

  /** An operator credential works at most once: after a mutation presented generation
      `first.expected`, no later mutation presenting it is applied, whatever happens between. */
  lemma CredentialWorksOnce(r: Row, first: Event, between: seq<Event>, again: Event)
    requires RowOk(r) && (first.Requeue? || first.Discard?) && (again.Requeue? || again.Discard?)
    requires Applies(r, first) && again.expected == first.expected
    ensures !Applies(Steps(Step(r, first), between), again)
  {
    StepFollowsTable(r, first);
    HistoryKeeps(Step(r, first), between);
  }

  /** The converse: a dead row accepts a mutation exactly under its current generation. */
  lemma DeadAcceptsCurrentGeneration(r: Row, e: Event)
    requires RowOk(r) && (e.Requeue? || e.Discard?) && e.tenant == r.tenant
    ensures Applies(r, e) <==> r.status == Dead && e.expected == r.generation
  {
  }

  // ----- bounded failures

  /** Failures recorded since the row was published or last requeued. */
  function Failures(r: Row, es: seq<Event>, sofar: nat): (n: nat)
    decreases |es|
  {
    if es == [] then sofar
    else
      Failures(Step(r, es[0]), es[1..],
               if !Applies(r, es[0]) then sofar
               else if es[0].Fail? then sofar + 1
               else if es[0].Requeue? then 0 else sofar)
  }

  predicate Budgeted(r: Row, failures: nat) {
    && RowOk(r)
    && (r.status != Dead && r.status != Discarded ==> failures < r.maxAttempts)
    && failures <= r.maxAttempts
    && failures <= r.attempts && (r.status == Leased ==> failures < r.attempts)
  }

  /** In one delivery lifecycle at most maxAttempts failures are recorded. */
  lemma {:induction false} FailuresAreBounded(r: Row, es: seq<Event>, sofar: nat)
    requires Budgeted(r, sofar)
    ensures Budgeted(Steps(r, es), Failures(r, es, sofar))
    decreases |es|
  {
    if es != [] {
      StepFollowsTable(r, es[0]);
      var next := if !Applies(r, es[0]) then sofar
                  else if es[0].Fail? then sofar + 1
                  else if es[0].Requeue? then 0 else sofar;
      FailuresAreBounded(Step(r, es[0]), es[1..], next);
    }
  }

  lemma NewRowIsBudgeted(id: string, dedup: string, tenant: string, envelope: string, maxAttempts: int, now: int)
    requires 1 <= maxAttempts
    ensures Budgeted(NewRow(id, dedup, tenant, envelope, maxAttempts, now), 0)
  {
  }

  /** n leases in a row, each taken when the one before has run out. */
  function Retakes(worker: string, at: int, n: nat): (es: seq<Event>) {
    seq(n, i => Take(worker, at, at))
  }

  /** Attempts, unlike failures, are not bounded: expired leases are taken again. */
  lemma AttemptsMayExceedTheCap(r: Row, worker: string, at: int, n: nat)
    requires Due(r, at)
    ensures Steps(r, Retakes(worker, at, n)).attempts == r.attempts + n
    ensures Failures(r, Retakes(worker, at, n), 0) == 0
  {
    TakesCount(r, worker, at, Retakes(worker, at, n));
  }

  lemma {:induction false} TakesCount(r: Row, worker: string, at: int, es: seq<Event>)
    requires Due(r, at) && forall i :: 0 <= i < |es| ==> es[i] == Take(worker, at, at)
    ensures Steps(r, es).attempts == r.attempts + |es| && Failures(r, es, 0) == 0
    ensures Due(Steps(r, es), at) && Steps(r, es).maxAttempts == r.maxAttempts
    ensures (r.status == Leased && r.leasedBy == worker) || es != [] ==>
              Steps(r, es).status == Leased && Steps(r, es).leasedBy == worker
    decreases |es|
  {
    if es != [] {
      TakesCount(Step(r, es[0]), worker, at, es[1..]);
    }
  }

  // ----- when a row can be leased

  /** Events that find the row Pending change nothing until it is leased. */
  lemma {:induction false} PendingWaits(r: Row, es: seq<Event>)
    requires r.status == Pending && forall i :: 0 <= i < |es| && es[i].Take? ==> es[i].now < r.availableAt
    ensures Steps(r, es) == r
    decreases |es|
  {
    if es != [] {
      assert !(es[0].Take? && es[0].now >= r.availableAt);
      assert forall i :: 0 <= i < |es[1..]| ==> es[1..][i] == es[i + 1];
      PendingWaits(r, es[1..]);
    }
  }

  /** After a failure recorded below the cap the row cannot be leased before its pause is over and can
      be from then on, whatever is tried in between. */
  lemma RetryWaits(r: Row, worker: string, now: int, retryIn: int, cause: string, es: seq<Event>,
                   taker: string, at: int, until: int)
    requires r.status == Leased && r.leasedBy == worker && r.attempts < r.maxAttempts
    requires forall i :: 0 <= i < |es| && es[i].Take? ==> es[i].now < now + retryIn
    ensures Applies(Steps(Step(r, Fail(worker, now, retryIn, cause)), es), Take(taker, at, until)) <==>
              at >= now + retryIn
  {
    PendingWaits(Step(r, Fail(worker, now, retryIn, cause)), es);
  }

  /** A published row can be leased from then on. */
  lemma PublishedIsDue(id: string, dedup: string, tenant: string, envelope: string, maxAttempts: int, now: int,
                       es: seq<Event>, taker: string, at: int, until: int)
    requires forall i :: 0 <= i < |es| && es[i].Take? ==> es[i].now < now
    ensures Applies(Steps(NewRow(id, dedup, tenant, envelope, maxAttempts, now), es), Take(taker, at, until)) <==>
              at >= now
  {
    PendingWaits(NewRow(id, dedup, tenant, envelope, maxAttempts, now), es);
  }

  /** A leased row that its worker does not settle. */
  lemma {:induction false} LeaseWaits(r: Row, worker: string, until: int, es: seq<Event>)
    requires r.status == Leased && r.leasedBy == worker && r.leaseUntil == Some(until)
    requires forall i :: 0 <= i < |es| && es[i].Take? ==> es[i].now < until
    requires forall i :: 0 <= i < |es| && (es[i].Ack? || es[i].Fail?) ==> es[i].worker != worker
    ensures Steps(r, es) == r
    decreases |es|
  {
    if es != [] {
      assert !(es[0].Take? && es[0].now >= until) && !((es[0].Ack? || es[0].Fail?) && es[0].worker == worker);
      assert forall i :: 0 <= i < |es[1..]| ==> es[1..][i] == es[i + 1];
      LeaseWaits(r, worker, until, es[1..]);
    }
  }

  /** Nobody else gets a leased row before the lease has run out, and anybody does from then on. */
  lemma LeaseExcludes(r: Row, worker: string, now: int, until: int, es: seq<Event>, taker: string, at: int, later: int)
    requires Due(r, now)
    requires forall i :: 0 <= i < |es| && es[i].Take? ==> es[i].now < until
    requires forall i :: 0 <= i < |es| && (es[i].Ack? || es[i].Fail?) ==> es[i].worker != worker
    ensures Applies(Steps(Step(r, Take(worker, now, until)), es), Take(taker, at, later)) <==> at >= until
  {
    LeaseWaits(Step(r, Take(worker, now, until)), worker, until, es);
  }

  // ----- exactly so many tries

  /** n leases at one instant, each followed by a failure without pause. */
  function Tries(worker: string, at: int, cause: string, n: nat): (es: seq<Event>) {
    if n == 0 then [] else [Take(worker, at, at), Fail(worker, at, 0, cause)] + Tries(worker, at, cause, n - 1)
  }

  lemma {:induction false} TriesCount(r: Row, worker: string, at: int, cause: string, n: nat)
    requires r.status == Pending && r.availableAt <= at && r.attempts + n <= r.maxAttempts
    ensures var s := Steps(r, Tries(worker, at, cause, n));
            && s.status == (if n > 0 && r.attempts + n == r.maxAttempts then Dead else Pending)
            && s.attempts == r.attempts + n
    decreases n
  {
    if n > 0 {
      var es, rest := Tries(worker, at, cause, n), Tries(worker, at, cause, n - 1);
      var failed := Step(Step(r, es[0]), es[1]);
      assert es[1..] == [es[1]] + rest && es[1..][1..] == rest;
      assert Steps(r, es) == Steps(failed, rest);
      if n > 1 {
        TriesCount(failed, worker, at, cause, n - 1);
      }
    }
  }

  /** A message that is refused every time dies at its maxAttempts-th try and not before. */
  lemma DiesAtTheCap(id: string, dedup: string, tenant: string, envelope: string, maxAttempts: int, now: int,
                     worker: string, at: int, cause: string, n: nat)
    requires 1 <= n <= maxAttempts && now <= at
    ensures Steps(NewRow(id, dedup, tenant, envelope, maxAttempts, now), Tries(worker, at, cause, n)).status ==
              if n == maxAttempts then Dead else Pending
  {
    TriesCount(NewRow(id, dedup, tenant, envelope, maxAttempts, now), worker, at, cause, n);
  }

  /** A requeued dead letter can be leased at once and has all its tries again. */
  lemma RequeuedStartsAnew(r: Row, now: int, worker: string, at: int, cause: string, n: nat)
    requires RowOk(r) && r.status == Dead && 1 <= n <= r.maxAttempts && now <= at
    ensures var s := Step(r, Requeue(r.tenant, r.generation, now));
            && (forall t, taker, until :: Applies(s, Take(taker, t, until)) <==> t >= now)
            && Steps(s, Tries(worker, at, cause, n)).status == if n == r.maxAttempts then Dead else Pending
  {
    TriesCount(Step(r, Requeue(r.tenant, r.generation, now)), worker, at, cause, n);
  }

  // ----- a worker's view of its own lease

  ghost predicate TakesNothing(es: seq<Event>, worker: string) {
    forall i :: 0 <= i < |es| ==> !(es[i].Take? && es[i].worker == worker)
  }

  /** While the worker takes nothing more, a row still leased to it is the row it took. */
  lemma {:induction false} LeaseIsCurrent(r: Row, es: seq<Event>, worker: string, snapshot: Row)
    requires TakesNothing(es, worker)
    requires r.status == Leased && r.leasedBy == worker ==> r == snapshot
    ensures var s := Steps(r, es); s.status == Leased && s.leasedBy == worker ==> s == snapshot
    decreases |es|
  {
    if es != [] {
      assert forall i :: 0 <= i < |es[1..]| ==> es[1..][i] == es[i + 1];
      LeaseIsCurrent(Step(r, es[0]), es[1..], worker, snapshot);
    }
  }

  /** The dispatcher judges a failure dead-lettered from the attempts of its snapshot; when
      the store accepts that failure it comes to the same verdict. */
  lemma VerdictsAgree(r: Row, worker: string, now: int, until: int, between: seq<Event>, fail: Event)
    requires Due(r, now) && TakesNothing(between, worker) && fail.Fail? && fail.worker == worker
    ensures var taken := Step(r, Take(worker, now, until));
            var s := Steps(taken, between);
            Applies(s, fail) ==> (Step(s, fail).status == Dead <==> taken.attempts >= taken.maxAttempts)
  {
    var taken := Step(r, Take(worker, now, until));
    LeaseIsCurrent(taken, between, worker, taken);
  }

  /** Without that the verdicts can differ, for every row below its cap and every worker id:
      once further leases under the same id have used up the attempts, the store dead-letters a
      failure that the first lease's snapshot calls a retry. */
  lemma SharedWorkerIdsCanDisagree(r: Row, worker: string, now: int, until: int, fail: Event)
    requires Due(r, now) && r.attempts + 1 < r.maxAttempts && fail.Fail? && fail.worker == worker
    ensures var taken := Step(r, Take(worker, now, until));
            var between := Retakes(worker, until, r.maxAttempts - taken.attempts);
            var s := Steps(taken, between);
            && !TakesNothing(between, worker)
            && taken.attempts < taken.maxAttempts && Applies(s, fail) && Step(s, fail).status == Dead
  {
    var taken := Step(r, Take(worker, now, until));
    var between := Retakes(worker, until, r.maxAttempts - taken.attempts);
    assert between[0] == Take(worker, until, until);
    TakesCount(taken, worker, until, between);
  }

  // ----- exactly when the verdicts differ

  /** Whether the row is requeued in between, which starts its attempts anew. */
  function Requeued(r: Row, es: seq<Event>): (b: bool)
    decreases |es|
  {
    es != [] && ((es[0].Requeue? && Applies(r, es[0])) || Requeued(Step(r, es[0]), es[1..]))
  }

  /** How often the row is leased, by anybody, since it was last requeued. */
  function Leases(r: Row, es: seq<Event>): (n: nat)
    decreases |es|
  {
    if es == [] then 0
    else
      (if es[0].Take? && Applies(r, es[0]) && !Requeued(Step(r, es[0]), es[1..]) then 1 else 0) +
      Leases(Step(r, es[0]), es[1..])
  }

  lemma {:induction false} AttemptsCountLeases(r: Row, es: seq<Event>)
    ensures Steps(r, es).attempts == (if Requeued(r, es) then 0 else r.attempts) + Leases(r, es)
    ensures Steps(r, es).maxAttempts == r.maxAttempts
    decreases |es|
  {
    if es != [] {
      AttemptsCountLeases(Step(r, es[0]), es[1..]);
    }
  }

  /** For every sequence of events between a lease and the failure its worker reports, if the store
      accepts the failure: the verdicts differ exactly when the leases in between take the row across
      its cap, or it was past the cap, requeued, and leased again too seldom to get back there. In
      both cases the same worker id leased something in between. */
  lemma VerdictsDifferIff(r: Row, worker: string, now: int, until: int, between: seq<Event>, fail: Event)
    requires Due(r, now) && fail.Fail? && fail.worker == worker
    requires Applies(Steps(Step(r, Take(worker, now, until)), between), fail)
    ensures var taken := Step(r, Take(worker, now, until));
            var dead := Step(Steps(taken, between), fail).status == Dead;
            var before := if Requeued(taken, between) then 0 else r.attempts + 1;
            && (dead != (taken.attempts >= taken.maxAttempts) <==>
                  (before + Leases(taken, between) >= r.maxAttempts) != (r.attempts + 1 >= r.maxAttempts))
            && (dead != (taken.attempts >= taken.maxAttempts) ==> !TakesNothing(between, worker))
  {
    var taken := Step(r, Take(worker, now, until));
    AttemptsCountLeases(taken, between);
    if TakesNothing(between, worker) {
      VerdictsAgree(r, worker, now, until, between, fail);
    }
  }
}
