/** The dispatcher: lease a batch, offer each message to the sink, settle it. */
module OutboxDispatcher {
  import opened Base
  import opened OutboxRow
  import opened OutboxTable
  import opened MemoryStore
  import opened OutboxStore

  newtype int64 = x: int | -0x8000_0000_0000_0000 <= x < 0x8000_0000_0000_0000

  /** 24 hours in nanoseconds. */
  const MAX_BACKOFF: int64 := 86_400_000_000_000

  function Pow2(n: nat): (p: nat)
    ensures p >= 1
  {
    if n == 0 then 1 else 2 * Pow2(n - 1)
  }

  lemma {:induction false} Pow2Grows(a: nat, b: nat)
    requires a <= b
    ensures Pow2(a) <= Pow2(b)
    decreases b
  {
    if a < b {
      Pow2Grows(a, b - 1);
    }
  }

  /** One doubling per attempt after the first, at most sixteen. */
  function Doublings(attempts: int): (n: nat) {
    if attempts - 1 < 0 then 0 else if attempts - 1 < 16 then attempts - 1 else 16
  }

  function Backoff(base: int, attempts: int): (r: int) {
    if base <= 0 then 0 else Min(base * Pow2(Doublings(attempts)), MAX_BACKOFF as int)
  }

  /** The doubling loop saturates at 24 hours and never leaves 64 bits, for every base. */
  method BackoffFor(base: int64, attempts: int) returns (r: int64)
    ensures r as int == Backoff(base as int, attempts)
  {
    if base <= 0 {
      return 0;
    }
    var n := if attempts - 1 < 16 then attempts - 1 else 16;
    r := base;
    var i := 0;
    while i < n
      invariant 0 <= i && (n >= 0 ==> i <= n) && (n < 0 ==> i == 0)
      invariant r as int == base as int * Pow2(i)
    {
      if r >= MAX_BACKOFF {
        StaysAbove(base as int, i, n);
        return MAX_BACKOFF;
      }
      assert base as int * Pow2(i + 1) == 2 * (base as int * Pow2(i));
      r := r * 2;
      i := i + 1;
    }
    if r > MAX_BACKOFF {
      r := MAX_BACKOFF;
    }
  }

  lemma StaysAbove(base: int, i: nat, n: nat)
    requires base > 0 && i <= n
    ensures base * Pow2(n) >= base * Pow2(i)
  {
    Pow2Grows(i, n);
  }

  /** More attempts never shorten the wait, and it stays within [min(base, 24h), 24h]. */
  lemma BackoffIsMonotone(base: int, a: int, b: int)
    requires a <= b
    ensures Backoff(base, a) <= Backoff(base, b) <= MAX_BACKOFF as int
    ensures base > 0 ==> Min(base, MAX_BACKOFF as int) <= Backoff(base, a)
  {
    if base > 0 {
      StaysAbove(base, Doublings(a), Doublings(b));
      StaysAbove(base, 0, Doublings(a));
    }
  }

  // ----- one round

  datatype SinkReply = Accept | Refuse(cause: string) | Cancelled

  datatype Verdict = WasDelivered | RetryScheduled | DeadLettered | NotRecorded

  /** The row event a reply leads to. */
  ghost function EventFor(worker: string, base: int, m: Message, reply: SinkReply, at: int): (e: Event)
    requires !reply.Cancelled?
  {
    match reply
    case Accept => Ack(worker, at)
    case Refuse(cause) => Fail(worker, at, Backoff(base, m.attempts), cause)
  }

  /** The table when the first n leased messages are settled: each leased row went where its
      reply sends it, everything else is as after the lease. */
  ghost predicate SettledUpTo(t: Rows, leased: Rows, worker: string, base: int, ms: seq<Message>,
                              sink: nat -> (SinkReply, int), n: nat)
    requires n <= |ms|
  {
    && t.Keys == leased.Keys
    && (forall i :: 0 <= i < n ==>
          && ms[i].id in t && sink(i).0 != Cancelled
          && t[ms[i].id] == Applied(leased[ms[i].id], EventFor(worker, base, ms[i], sink(i).0, sink(i).1)))
    && (forall id :: id in t && (forall i :: 0 <= i < n ==> ms[i].id != id) ==> t[id] == leased[id])
  }

  /** The leased rows are the worker's, with distinct ids. */
  ghost predicate LeasedTo(leased: Rows, worker: string, ms: seq<Message>) {
    && (forall i :: 0 <= i < |ms| ==>
          && ms[i].id in leased && ms[i] == MessageOf(leased[ms[i].id])
          && leased[ms[i].id].status == Leased && leased[ms[i].id].leasedBy == worker)
    && (forall i, j :: 0 <= i < j < |ms| ==> ms[i].id != ms[j].id)
  }

  /** The verdict the dispatcher reports is what the store did. */
  ghost predicate Truthful(t: Rows, ms: seq<Message>, log: seq<Verdict>) {
    && |log| <= |ms|
    && forall i :: 0 <= i < |log| && ms[i].id in t ==>
         match t[ms[i].id].status
         case Delivered => log[i] == WasDelivered
         case Dead => log[i] == DeadLettered
         case _ => log[i] == RetryScheduled
  }

  lemma BatchIsLeased(v: View, after: View, batch: seq<OutboxMessage>, worker: string, now: int, until: int, limit: nat,
                      ms: seq<Message>)
    requires ViewOk(v) && Aligned(v) && IsBatch(v, now, limit, batch) && ViewOk(after) && Aligned(after)
    requires after == Taken(v, batch, Take(worker, now, until))
    requires |ms| == |batch| && forall i :: 0 <= i < |ms| ==>
               batch[i] in after.rows && ms[i] == MessageOf(after.rows[batch[i]])
    ensures LeasedTo(TableOf(after), worker, ms)
  {
    forall i | 0 <= i < |ms|
      ensures ms[i].id in after.byId && after.byId[ms[i].id] == batch[i]
      ensures after.rows[batch[i]].status == Leased && after.rows[batch[i]].leasedBy == worker
    {
      assert batch[i] in batch;
    }
  }

  lemma SettleOne(t: Rows, leased: Rows, worker: string, base: int, ms: seq<Message>,
                  sink: nat -> (SinkReply, int), n: nat)
    requires n < |ms| && LeasedTo(leased, worker, ms) && SettledUpTo(t, leased, worker, base, ms, sink, n)
    requires !sink(n).0.Cancelled?
    ensures ms[n].id in t && t[ms[n].id] == leased[ms[n].id]
    ensures Applies(t[ms[n].id], EventFor(worker, base, ms[n], sink(n).0, sink(n).1))
    ensures SettledUpTo(t[ms[n].id := Applied(t[ms[n].id], EventFor(worker, base, ms[n], sink(n).0, sink(n).1))],
                        leased, worker, base, ms, sink, n + 1)
  {
    hide Applied;
    assert t[ms[n].id] == leased[ms[n].id];
  }

  lemma SettledTruthfully(t: Rows, leased: Rows, worker: string, base: int, ms: seq<Message>,
                          sink: nat -> (SinkReply, int), log: seq<Verdict>)
    requires |log| <= |ms| && LeasedTo(leased, worker, ms) && SettledUpTo(t, leased, worker, base, ms, sink, |log|)
    requires forall i :: 0 <= i < |log| ==> log[i] == Reported(ms[i], sink(i).0)
    ensures Truthful(t, ms, log)
  {
  }

  function Reported(m: Message, reply: SinkReply): (v: Verdict) {
    if reply.Accept? then WasDelivered else if m.attempts >= m.maxAttempts then DeadLettered else RetryScheduled
  }

  /** How long a message waits after a refusal: the base, doubled for every earlier attempt up to
      sixteen times, and at most a day. */
  ghost function Pause(base: int, attempts: int): (p: int) {
    if base <= 0 then 0
    else Min(base * Pow2(if attempts <= 1 then 0 else if attempts <= 17 then attempts - 1 else 16), 86_400_000_000_000)
  }

  lemma BackoffIsPause(base: int, attempts: int)
    ensures Backoff(base, attempts) == Pause(base, attempts)
  {
  }

  /** Every refused message that is not dead-lettered can be leased again exactly from its refusal
      plus its pause on. */
  ghost predicate RetriesWait(t: Rows, ms: seq<Message>, base: int, sink: nat -> (SinkReply, int), n: nat)
    requires n <= |ms|
  {
    forall i :: 0 <= i < n && sink(i).0.Refuse? && ms[i].attempts < ms[i].maxAttempts ==>
      ms[i].id in t && forall at :: Due(t[ms[i].id], at) <==> at >= sink(i).1 + Pause(base, ms[i].attempts)
  }

  lemma SettledRetriesWait(t: Rows, leased: Rows, worker: string, base: int, ms: seq<Message>,
                           sink: nat -> (SinkReply, int), n: nat)
    requires n <= |ms| && LeasedTo(leased, worker, ms) && SettledUpTo(t, leased, worker, base, ms, sink, n)
    ensures RetriesWait(t, ms, base, sink, n)
  {
    forall i | 0 <= i < n && sink(i).0.Refuse? && ms[i].attempts < ms[i].maxAttempts
      ensures ms[i].id in t && forall at :: Due(t[ms[i].id], at) <==> at >= sink(i).1 + Pause(base, ms[i].attempts)
    {
      BackoffIsPause(base, ms[i].attempts);
      RefusedRow(leased[ms[i].id], worker, sink(i).1, Pause(base, ms[i].attempts), sink(i).0.cause);
    }
  }

  lemma RefusedRow(r: Row, worker: string, now: int, retryIn: int, cause: string)
    requires r.attempts < r.maxAttempts
    ensures forall at :: Due(Applied(r, Fail(worker, now, retryIn, cause)), at) <==> at >= now + retryIn
  {
  }

  /** No batch leased earlier holds the message, whatever happened to its row in between short of
      being leased. */
  lemma NoBatchBefore(v: View, now: int, limit: nat, batch: seq<OutboxMessage>, id: string, refused: Row,
                      es: seq<Event>,
                      due: int)
    requires IsBatch(v, now, limit, batch) && id in v.byId && v.byId[id] in v.rows
    requires refused.status == Pending && (forall at :: Due(refused, at) <==> at >= due)
    requires v.rows[v.byId[id]] == Steps(refused, es)
    requires forall i :: 0 <= i < |es| && es[i].Take? ==> es[i].now < due
    ensures v.byId[id] in batch ==> now >= due
  {
    assert Due(refused, refused.availableAt) && !Due(refused, refused.availableAt - 1);
    PendingWaits(refused, es);
    if v.byId[id] in batch {
      assert v.byId[id] in DueOf(v, now);
    }
  }

  /** The table right after a batch was leased. */
  ghost function LeasedTable(v: View, batch: seq<OutboxMessage>, e: Event): (t: Rows)
    requires ViewOk(v) && e.Take?
  {
    TakenKeeps(v, batch, e);
    TableOf(Taken(v, batch, e))
  }

  /** The messages handed out are the leased rows of the batch, in its order. */
  ghost predicate Snapshots(v: View, batch: seq<OutboxMessage>, e: Event, ms: seq<Message>) {
    && |ms| == |batch|
    && forall i :: 0 <= i < |ms| ==> batch[i] in v.rows && ms[i] == MessageOf(Applied(v.rows[batch[i]], e))
  }

  /** Leases a batch of due rows and settles it in order until the sink cancels. */
  method DispatchOnce(repo: OutboxRepository, worker: string, leaseFor: int, batchSize: nat, base: int64,
                      sink: nat -> (SinkReply, int), now: int)
    returns (handled: nat, log: seq<Verdict>, ms: seq<Message>, ghost batch: seq<OutboxMessage>)
    requires repo.st.Valid()
    modifies repo.st.outbox
    ensures repo.st.Valid() && handled == |ms| && |log| <= |ms|
    ensures IsBatch(old(repo.st.Outbox()), now, batchSize, batch)
    ensures Snapshots(old(repo.st.Outbox()), batch, Take(worker, now, now + leaseFor), ms)
    ensures |log| < |ms| ==> sink(|log|).0 == Cancelled
    ensures forall i :: 0 <= i < |log| ==> sink(i).0 != Cancelled
    ensures Aligned(old(repo.st.Outbox())) ==>
              && Aligned(repo.st.Outbox())
              && SettledUpTo(repo.st.Table(),
                             LeasedTable(old(repo.st.Outbox()), batch, Take(worker, now, now + leaseFor)),
                             worker, base as int, ms, sink, |log|)
              && Truthful(repo.st.Table(), ms, log)
              && RetriesWait(repo.st.Table(), ms, base as int, sink, |log|)
  {
    hide RetriesWait, Due, Pause;
    hide ViewOk, Aligned, TableOf, IsBatch, Taken, LeasedTo, SettledUpTo, Truthful, Backoff, StoreState.Outbox;
    ghost var v, e := repo.st.Outbox(), Take(worker, now, now + leaseFor);
    ms, batch := repo.Lease(worker, leaseFor, batchSize, now);
    RowsOfBatch(repo.st, batch, ms);
    BatchSnapshots(v, batch, e, ms, now, batchSize);
    ghost var leased := repo.st.Table();
    assert leased == LeasedTable(v, batch, e);
    ghost var aligned := Aligned(v);
    if aligned {
      BatchIsLeased(v, repo.st.Outbox(), batch, worker, now, now + leaseFor, batchSize, ms);
      NothingSettled(leased, worker, base as int, ms, sink);
    }
    handled, log := |ms|, [];
    var i := 0;
    while i < |ms|
      invariant 0 <= i <= |ms| && |log| == i
      invariant repo.st.Valid()
      invariant forall k :: 0 <= k < i ==> sink(k).0 != Cancelled
      invariant aligned ==>
                  && Aligned(repo.st.Outbox()) && LeasedTo(leased, worker, ms)
                  && SettledUpTo(repo.st.Table(), leased, worker, base as int, ms, sink, i)
      invariant aligned ==> forall k :: 0 <= k < i ==> log[k] == Reported(ms[k], sink(k).0)
    {
      var m, reply, at := ms[i], sink(i).0, sink(i).1;
      if reply.Cancelled? {
        break;
      }
      if aligned {
        SettleOne(repo.st.Table(), leased, worker, base as int, ms, sink, i);
      }
      var verdict := Settle(repo, worker, base, m, reply, at);
      log := log + [verdict];
      i := i + 1;
    }
    if aligned {
      SettledTruthfully(repo.st.Table(), leased, worker, base as int, ms, sink, log);
      SettledRetriesWait(repo.st.Table(), leased, worker, base as int, ms, sink, |log|);
    }
  }

  /** After the lease the rows of the batch are the taken ones. */
  lemma BatchSnapshots(v: View, batch: seq<OutboxMessage>, e: Event, ms: seq<Message>, now: int, limit: nat)
    requires IsBatch(v, now, limit, batch) && |ms| == |batch|
    requires forall i :: 0 <= i < |ms| ==>
               batch[i] in Taken(v, batch, e).rows && ms[i] == MessageOf(Taken(v, batch, e).rows[batch[i]])
    ensures Snapshots(v, batch, e, ms)
  {
    hide Applied;
    forall i | 0 <= i < |ms| ensures batch[i] in v.rows && ms[i] == MessageOf(Applied(v.rows[batch[i]], e)) {
      assert batch[i] in batch;
    }
  }

  lemma NothingSettled(leased: Rows, worker: string, base: int, ms: seq<Message>, sink: nat -> (SinkReply, int))
    ensures SettledUpTo(leased, leased, worker, base, ms, sink, 0)
  {
  }

  lemma RowsOfBatch(st: StoreState, batch: seq<OutboxMessage>, ms: seq<Message>)
    requires |ms| == |batch| && forall i :: 0 <= i < |ms| ==> batch[i] in st.outbox && ms[i] == MessageOf(batch[i].row)
    ensures forall i :: 0 <= i < |ms| ==>
              batch[i] in st.Outbox().rows && ms[i] == MessageOf(st.Outbox().rows[batch[i]])
  {
  }

  /** Acknowledges or fails one message and names the outcome. */
  method Settle(repo: OutboxRepository, worker: string, base: int64, m: Message, reply: SinkReply, at: int)
    returns (verdict: Verdict)
    requires repo.st.Valid() && !reply.Cancelled?
    modifies repo.st.outbox
    ensures repo.st.Valid() && (Aligned(old(repo.st.Outbox())) ==> Aligned(repo.st.Outbox()))
    ensures if m.id in old(repo.st.Table()) &&
               Applies(old(repo.st.Table())[m.id], EventFor(worker, base as int, m, reply, at))
            then
              verdict == Reported(m, reply) &&
              repo.st.Table() == old(repo.st.Table())[m.id :=
                Applied(old(repo.st.Table())[m.id], EventFor(worker, base as int, m, reply, at))]
            else
              verdict == NotRecorded && repo.st.Outbox() == old(repo.st.Outbox())
    ensures verdict != NotRecorded ==> m.id in old(repo.st.Table()) && m.id in repo.st.Table()
    ensures verdict == RetryScheduled && m == MessageOf(old(repo.st.Table())[m.id]) ==>
              forall t :: Due(repo.st.Table()[m.id], t) <==> t >= at + Pause(base as int, m.attempts)
  {
    hide ViewOk, Aligned, TableOf, Backoff, Pause, StoreState.Outbox, StoreState.Table, Applied;
    match reply {
      case Accept =>
        var acked := repo.MarkDelivered(m.id, worker, at);
        verdict := if acked.Ok? then WasDelivered else NotRecorded;
      case Refuse(cause) =>
        var retryIn := BackoffFor(base, m.attempts);
        BackoffIsPause(base as int, m.attempts);
        var failed := repo.FailWithBackoff(m.id, worker, at, retryIn as int, cause);
        verdict := if failed.Err? then NotRecorded
                   else if m.attempts >= m.maxAttempts then DeadLettered else RetryScheduled;
    }
  }
}
