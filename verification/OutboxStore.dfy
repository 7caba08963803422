/** The outbox repository: one slice and two indexes over rows that change in place. */
module OutboxStore {
  import opened Base
  import opened OutboxRow
  import opened OutboxTable
  import opened MemoryStore
  import opened OutboxSweep

  datatype Message = Message(id: string, dedup: string, tenant: string, envelope: string, attempts: int,
                             maxAttempts: int)

  function MessageOf(r: Row): (m: Message) {
    Message(r.id, r.dedup, r.tenant, r.envelope, r.attempts, r.maxAttempts)
  }

  /** The error an operator mutation that is not applied reports. */
  ghost function Refusal(t: Rows, id: string, tenant: string, expected: int): (e: Error) {
    if expected < 1 then Invalid("outbox_generation")
    else if id !in t || t[id].tenant != tenant then NotFound
    else if Classify(t[id], expected).Some? then Classify(t[id], expected).value
    else NotFound
  }

  datatype SweepResult = SweepResult(delivered: int, discarded: int)

  /** What a round reports: it fills its limit with delivered rows first. */
  ghost function SweepCounts(v: View, cutoff: int, req: SweepRequest): (r: SweepResult) {
    var delivered := Min(req.limit, |EligibleOf(v, Delivered, cutoff, req.delivered)|);
    SweepResult(delivered, Min(req.limit - delivered, |EligibleOf(v, Discarded, cutoff, req.discarded)|))
  }

  /** As many rows as reported, all past their horizon, and as many as there are up to the limit. */
  ghost predicate IsSweep(v: View, cutoff: int, req: SweepRequest, gone: set<OutboxMessage>, result: SweepResult) {
    && gone <= v.rows.Keys && |gone| == result.delivered + result.discarded
    && (forall m :: m in gone ==> PastHorizon(v.rows[m], cutoff, req))
    && |gone| == Min(req.limit, |set m | m in v.rows && PastHorizon(v.rows[m], cutoff, req)|)
    && result.delivered == |set m | m in gone && v.rows[m].status == Delivered|
  }

  lemma SweptWereStored(v: View, cutoff: int, req: SweepRequest, gone: set<OutboxMessage>, result: SweepResult)
    requires IsSweep(v, cutoff, req, gone, result)
    ensures gone <= v.rows.Keys
  {
  }

  // ----- leases

  ghost function DueOf(v: View, now: int): (r: set<OutboxMessage>) {
    set m | m in v.rows && Due(v.rows[m], now)
  }

  /** As many due rows as the limit allows, oldest first. */
  ghost predicate IsBatch(v: View, now: int, limit: nat, batch: seq<OutboxMessage>) {
    && (forall i, j :: 0 <= i < j < |batch| ==> batch[i] != batch[j])
    && (forall m :: m in batch ==> m in DueOf(v, now))
    && |batch| == Min(limit, |DueOf(v, now)|)
    && (forall i, j :: 0 <= i < j < |batch| && batch[i] in v.rows && batch[j] in v.rows ==>
          v.rows[batch[i]].createdAt <= v.rows[batch[j]].createdAt)
    && (forall m, x :: m in batch && x in DueOf(v, now) && x !in batch && m in v.rows ==>
          v.rows[m].createdAt <= v.rows[x].createdAt)
  }

  /** Every row of the batch taken. */
  ghost function Taken(v: View, batch: seq<OutboxMessage>, e: Event): (after: View) {
    v.(rows := map m | m in v.rows :: if m in batch then Applied(v.rows[m], e) else v.rows[m])
  }

  lemma TakenKeeps(v: View, batch: seq<OutboxMessage>, e: Event)
    requires ViewOk(v) && e.Take?
    ensures ViewOk(Taken(v, batch, e))
    ensures Aligned(v) ==> Aligned(Taken(v, batch, e))
  {
    assert Taken(v, batch, e).rows.Keys == v.rows.Keys;
  }

  /** In the table, exactly the rows of the batch were taken. */
  lemma TakenTable(v: View, batch: seq<OutboxMessage>, e: Event, id: string)
    requires ViewOk(v) && ViewOk(Taken(v, batch, e)) && id in v.byId
    ensures id in TableOf(v) && id in TableOf(Taken(v, batch, e))
    ensures TableOf(Taken(v, batch, e))[id] ==
              if v.byId[id] in batch then Applied(TableOf(v)[id], e) else TableOf(v)[id]
  {
  }

  /** What was published earlier is leased earlier: of two due rows with whatever past, a batch holds the
      later one only if it holds the earlier one. */
  lemma EarlierIsLeasedFirst(v: View, now: int, limit: nat, batch: seq<OutboxMessage>, a: OutboxMessage,
                             b: OutboxMessage, x: Row, y: Row, es: seq<Event>, fs: seq<Event>, at: int, later: int)
    requires IsBatch(v, now, limit, batch) && a in v.rows && b in v.rows && Due(v.rows[a], now) && at < later
    requires x.maxAttempts >= 1 && x == NewRow(x.id, x.dedup, x.tenant, x.envelope, x.maxAttempts, at)
    requires y.maxAttempts >= 1 && y == NewRow(y.id, y.dedup, y.tenant, y.envelope, y.maxAttempts, later)
    requires v.rows[a] == Steps(x, es) && v.rows[b] == Steps(y, fs)
    ensures b in batch ==> a in batch
  {
    CreatedStays(x, es);
    CreatedStays(y, fs);
    assert a in DueOf(v, now);
  }

  lemma {:induction false} CreatedStays(r: Row, es: seq<Event>)
    requires RowOk(r)
    ensures Steps(r, es).createdAt == r.createdAt
    decreases |es|
  {
    if es != [] {
      StepFollowsTable(r, es[0]);
      CreatedStays(Step(r, es[0]), es[1..]);
    }
  }

  /** The due rows, in slice order. */
  method CollectDue(st: StoreState, now: int) returns (due: seq<OutboxMessage>)
    requires st.Valid()
    ensures forall i, j :: 0 <= i < j < |due| ==> due[i] != due[j]
    ensures Elements(due) == DueOf(st.Outbox(), now)
  {
    hide Due, IndexOk;
    due := [];
    var i := 0;
    while i < |st.outbox|
      invariant 0 <= i <= |st.outbox|
      invariant forall k, l :: 0 <= k < l < |due| ==> due[k] != due[l]
      invariant forall m :: m in due <==> m in st.outbox[..i] && Due(m.row, now)
    {
      var m := st.outbox[i];
      assert st.outbox[..i + 1] == st.outbox[..i] + [m];
      assert m !in st.outbox[..i];
      if Due(m.row, now) {
        due := due + [m];
      }
      i := i + 1;
    }
    assert st.outbox[..i] == st.outbox;
  }

  /** Messages ordered by creation time. */
  method SortByAge(ms: seq<OutboxMessage>) returns (s: seq<OutboxMessage>)
    requires forall i, j :: 0 <= i < j < |ms| ==> ms[i] != ms[j]
    ensures forall i, j :: 0 <= i < j < |s| ==> s[i] != s[j]
    ensures Elements(s) == Elements(ms)
    ensures forall i, j :: 0 <= i < j < |s| ==> s[i].row.createdAt <= s[j].row.createdAt
  {
    var pairs: seq<(Key, OutboxMessage)> := [];
    var i := 0;
    while i < |ms|
      invariant 0 <= i <= |ms| && |pairs| == i
      invariant forall k :: 0 <= k < i ==> pairs[k] == (Key(ms[k].row.createdAt, ""), ms[k])
    {
      pairs := pairs + [(Key(ms[i].row.createdAt, ""), ms[i])];
      i := i + 1;
    }
    SortProps(pairs);
    var sorted := Sort(pairs);
    RearrangedDistinct(pairs, sorted);
    assert forall k :: 0 <= k < |sorted| ==> sorted[k] in sorted;
    s := [];
    i := 0;
    while i < |sorted|
      invariant 0 <= i <= |sorted| && |s| == i
      invariant forall k :: 0 <= k < i ==> s[k] == sorted[k].1
    {
      s := s + [sorted[i].1];
      i := i + 1;
    }
    SortedMessages(ms, pairs, sorted, s);
    forall k, l | 0 <= k < l < |s| ensures s[k].row.createdAt <= s[l].row.createdAt {
      LessTotal(sorted[k].0, sorted[l].0);
    }
  }

  lemma SortedMessages(ms: seq<OutboxMessage>, pairs: seq<(Key, OutboxMessage)>, sorted: seq<(Key, OutboxMessage)>,
                       s: seq<OutboxMessage>)
    requires |pairs| == |ms| && forall k :: 0 <= k < |ms| ==> pairs[k].1 == ms[k]
    requires forall x :: x in sorted <==> x in pairs
    requires |s| == |sorted| && forall k :: 0 <= k < |s| ==> s[k] == sorted[k].1
    ensures Elements(s) == Elements(ms)
  {
    forall m | m in s ensures m in ms {
      var k :| 0 <= k < |s| && s[k] == m;
      assert sorted[k] in pairs;
    }
    forall m | m in ms ensures m in s {
      var k :| 0 <= k < |ms| && ms[k] == m;
      assert pairs[k] in sorted;
      var l :| 0 <= l < |sorted| && sorted[l] == pairs[k];
      assert s[l] == m;
    }
  }

  lemma TakeStep(r: Row, e: Event)
    requires e.Take?
    ensures Applied(r, e) ==
            r.(status := Leased, leasedBy := e.worker, leaseUntil := Some(e.until), attempts := r.attempts + 1)
  {
  }

  lemma PrefixIsBatch(v: View, now: int, limit: nat, sorted: seq<OutboxMessage>, n: nat)
    requires Elements(sorted) == DueOf(v, now)
    requires forall i, j :: 0 <= i < j < |sorted| ==> sorted[i] != sorted[j]
    requires forall i, j :: 0 <= i < j < |sorted| && sorted[i] in v.rows && sorted[j] in v.rows ==>
               v.rows[sorted[i]].createdAt <= v.rows[sorted[j]].createdAt
    requires n == Min(limit, |sorted|)
    ensures IsBatch(v, now, limit, sorted[..n])
  {
    DistinctCount(sorted, DueOf(v, now));
    var batch := sorted[..n];
    forall m | m in batch ensures m in DueOf(v, now) {
      assert m in Elements(sorted);
    }
    forall m, x | m in batch && x in DueOf(v, now) && x !in batch && m in v.rows
      ensures v.rows[m].createdAt <= v.rows[x].createdAt
    {
      var i :| 0 <= i < n && sorted[i] == m;
      assert x in Elements(sorted);
      var j :| 0 <= j < |sorted| && sorted[j] == x;
      assert forall k :: 0 <= k < n ==> batch[k] == sorted[k];
    }
  }

  /** The oldest due rows, up to the limit. */
  method SelectBatch(st: StoreState, limit: nat, now: int) returns (batch: seq<OutboxMessage>)
    requires st.Valid()
    ensures IsBatch(st.Outbox(), now, limit, batch)
    ensures forall i, j :: 0 <= i < j < |batch| ==> batch[i] != batch[j]
    ensures forall m :: m in batch ==> m in st.outbox
  {
    hide IsBatch, IndexOk, SliceOk, Due;
    var due := CollectDue(st, now);
    var sorted := SortByAge(due);
    var n := if |sorted| > limit then limit else |sorted|;
    assert forall m :: m in sorted ==> m in st.outbox by {
      assert forall m :: m in sorted ==> m in Elements(sorted);
    }
    PrefixIsBatch(st.Outbox(), now, limit, sorted, n);
    batch := sorted[..n];
  }

  /** Looking a row up in the table is looking it up through the id index. */
  lemma Lookup(st: StoreState, id: string)
    requires st.Valid()
    ensures id in st.Table() <==> id in st.outboxById
    ensures id in st.outboxById ==>
              st.outboxById[id] in st.outbox && st.Table()[id] == st.outboxById[id].row &&
              st.outboxById[id].row.id == id
  {
    if id in st.outboxById {
      assert st.outboxById[id] in st.Outbox().rows;
    }
  }

  /** The victims of a round: delivered rows first, discarded rows with what is left of the limit. */
  method ChooseVictims(st: StoreState, req: SweepRequest, now: int)
    returns (result: SweepResult, victims: seq<OutboxMessage>)
    requires st.Valid() && ValidSweep(req)
    ensures result == SweepCounts(st.Outbox(), now, req)
    ensures Elements(victims) <= st.Outbox().rows.Keys && IsSweep(st.Outbox(), now, req, Elements(victims), result)
    ensures Aligned(st.Outbox()) ==>
              IdsOf(st.Outbox(), Elements(victims)) == Ids(Victims(st.Table(), now, req))
  {
    hide ViewOk, Aligned, IsSelection, TableOf, Victims, IdsOf, Ids, EligibleOf;
    var delivered := SelectVictims(st, Delivered, now, req.delivered);
    var discarded := SelectVictims(st, Discarded, now, req.discarded);
    SelectionCount(st.Outbox(), now, req, delivered, discarded);
    var take := if req.limit < |delivered| then req.limit else |delivered|;
    var rest := if req.limit - take < |discarded| then req.limit - take else |discarded|;
    victims := delivered[..take] + discarded[..rest];
    result := SweepResult(take, rest);
    VictimsAreSweep(st.Outbox(), now, req, delivered, discarded, take, rest);
    if Aligned(st.Outbox()) {
      VictimsOf(st.Outbox(), now, req, delivered, discarded, take, rest);
    }
  }

  /** Collects the victims and removes their keys from both indexes. */
  method Unindex(st: StoreState, victims: seq<OutboxMessage>)
    returns (remove: set<OutboxMessage>, byId: map<string, OutboxMessage>, byDedup: map<string, OutboxMessage>)
    requires Elements(victims) <= st.Outbox().rows.Keys
    ensures remove == Elements(victims)
    ensures byId == st.outboxById - IdsOf(st.Outbox(), remove)
    ensures byDedup == st.outboxByDedup - DedupsOf(st.Outbox(), remove)
  {
    ghost var v := st.Outbox();
    remove, byId, byDedup := {}, st.outboxById, st.outboxByDedup;
    var i := 0;
    while i < |victims|
      invariant 0 <= i <= |victims|
      invariant remove == Elements(victims[..i]) && remove <= v.rows.Keys
      invariant byId == v.byId - IdsOf(v, remove) && byDedup == v.byDedup - DedupsOf(v, remove)
    {
      var m := victims[i];
      assert m in Elements(victims);
      assert victims[..i + 1] == victims[..i] + [m];
      assert Elements(victims[..i + 1]) == remove + {m};
      assert IdsOf(v, remove + {m}) == IdsOf(v, remove) + {m.row.id};
      assert DedupsOf(v, remove + {m}) == DedupsOf(v, remove) + {m.row.dedup};
      remove, byId, byDedup := remove + {m}, byId - {m.row.id}, byDedup - {m.row.dedup};
      i := i + 1;
    }
    assert victims[..i] == victims;
  }

  method Kept(ms: seq<OutboxMessage>, remove: set<OutboxMessage>) returns (kept: seq<OutboxMessage>)
    ensures kept == Without(ms, remove)
    ensures forall m :: m in kept ==> m in ms
  {
    kept := [];
    var i := 0;
    while i < |ms|
      invariant 0 <= i <= |ms| && kept == Without(ms[..i], remove)
      invariant forall m :: m in kept ==> m in ms
    {
      assert ms[..i + 1][..i] == ms[..i];
      if ms[i] !in remove {
        kept := kept + [ms[i]];
      }
      i := i + 1;
    }
    assert ms[..i] == ms;
  }

  class OutboxRepository {
    const st: StoreState

    constructor (st: StoreState)
      ensures this.st == st
    {
      this.st := st;
    }

    /** Adds a fresh row to all three views. */
    method Enqueue(r: Row) returns (stored: OutboxMessage)
      requires st.Valid() && r.dedup !in st.outboxByDedup
      modifies st`outbox, st`outboxById, st`outboxByDedup
      ensures st.Valid() && fresh(stored)
      ensures st.Outbox() == Add(old(st.Outbox()), stored, r) && st.outbox == old(st.outbox) + [stored]
      ensures st.Table() == old(st.Table())[r.id := r]
      ensures Aligned(old(st.Outbox())) ==> (Aligned(st.Outbox()) <==> r.id !in old(st.outboxById))
    {
      hide SliceOk, IndexOk, Aligned, TableOf;
      stored := new OutboxMessage(r);
      AddKeeps(st.Outbox(), stored, r);
      ghost var v := st.Outbox();
      st.outbox := st.outbox + [stored];
      st.outboxById := st.outboxById[r.id := stored];
      st.outboxByDedup := st.outboxByDedup[r.dedup := stored];
      assert forall m :: m in st.outbox <==> m in v.slice || m == stored;
      assert st.Outbox().rows == v.rows[stored := r];
    }

    /** Writes the row stored under id in place; every view sees the write. */
    method Write(id: string, r: Row)
      requires st.Valid() && id in st.outboxById
      requires r.id == id && r.dedup == st.outboxById[id].row.dedup
      modifies st.outboxById[id]
      ensures st.Valid() && (Aligned(old(st.Outbox())) ==> Aligned(st.Outbox()))
      ensures st.Outbox() == Put(old(st.Outbox()), st.outboxById[id], r) && st.outboxById[id].row == r
      ensures st.Table() == old(st.Table())[id := r]
    {
      hide SliceOk, IndexOk, Aligned, TableOf;
      Lookup(st, id);
      var m := st.outboxById[id];
      ghost var v := st.Outbox();
      PutKeeps(v, m, r);
      m.row := r;
      assert st.Outbox().rows == v.rows[m := r];
    }

    /** Enqueues once per dedup key. The views stay aligned exactly when the key was known or
        the id is new. */
    method Publish(msg: Message, now: int) returns (out: Outcome<()>)
      requires st.Valid()
      modifies st`outbox, st`outboxById, st`outboxByDedup
      ensures st.Valid()
      ensures forall m :: m in st.outbox ==> m in old(st.outbox) || fresh(m)
      ensures out.Err? <==> msg.maxAttempts < 1 || msg.maxAttempts > 100
      ensures out.Err? || msg.dedup in old(st.outboxByDedup) ==> st.Outbox() == old(st.Outbox())
      ensures out.Ok? && msg.dedup !in old(st.outboxByDedup) ==>
                st.Table() == old(st.Table())[msg.id :=
                  NewRow(msg.id, msg.dedup, msg.tenant, msg.envelope, msg.maxAttempts, now)]
      ensures Aligned(old(st.Outbox())) ==>
                (Aligned(st.Outbox()) <==>
                 out.Err? || msg.dedup in old(st.outboxByDedup) || msg.id !in old(st.outboxById))
    {
      hide ViewOk, Aligned, TableOf;
      if msg.maxAttempts < 1 || msg.maxAttempts > 100 {
        return Err(Invalid("outbox_max_attempts"));
      }
      if msg.dedup in st.outboxByDedup {
        return Ok(());
      }
      var _ := Enqueue(NewRow(msg.id, msg.dedup, msg.tenant, msg.envelope, msg.maxAttempts, now));
      return Ok(());
    }

    /** Claims a batch of due rows for a worker; attempts count at claim time. */
    method Lease(worker: string, leaseFor: int, limit: nat, now: int)
      returns (out: seq<Message>, ghost batch: seq<OutboxMessage>)
      requires st.Valid()
      modifies st.outbox
      ensures st.Valid() && (Aligned(old(st.Outbox())) ==> Aligned(st.Outbox()))
      ensures IsBatch(old(st.Outbox()), now, limit, batch)
      ensures st.Outbox() == Taken(old(st.Outbox()), batch, Take(worker, now, now + leaseFor))
      ensures |out| == |batch|
      ensures forall i :: 0 <= i < |out| ==> batch[i] in st.outbox && out[i] == MessageOf(batch[i].row)
    {
      hide IsBatch, Aligned, ViewOk, Taken;
      var selected := SelectBatch(st, limit, now);
      TakenKeeps(st.Outbox(), selected, Take(worker, now, now + leaseFor));
      batch := selected;
      out := TakeBatch(selected, worker, now, now + leaseFor);
    }

    /** The loop that leases the rows of a batch. */
    method TakeBatch(batch: seq<OutboxMessage>, worker: string, now: int, until: int) returns (out: seq<Message>)
      requires forall i, j :: 0 <= i < j < |batch| ==> batch[i] != batch[j]
      requires forall m :: m in batch ==> m in st.outbox
      modifies st.outbox
      ensures st.Outbox() == Taken(old(st.Outbox()), batch, Take(worker, now, until))
      ensures |out| == |batch|
      ensures forall i :: 0 <= i < |out| ==> batch[i] in st.outbox && out[i] == MessageOf(batch[i].row)
    {
      hide Applied;
      ghost var v, e := st.Outbox(), Take(worker, now, until);
      out := [];
      var i := 0;
      while i < |batch|
        invariant 0 <= i <= |batch| && |out| == i
        invariant forall k :: 0 <= k < i ==> batch[k].row == Applied(v.rows[batch[k]], e)
        invariant forall m :: m in st.outbox && m !in batch[..i] ==> m.row == v.rows[m]
        invariant forall k :: 0 <= k < i ==> out[k] == MessageOf(batch[k].row)
      {
        var m := batch[i];
        assert m in batch && batch[..i + 1] == batch[..i] + [m] && m !in batch[..i];
        TakeStep(m.row, e);
        m.row := m.row.(status := Leased, leasedBy := worker, leaseUntil := Some(until),
                        attempts := m.row.attempts + 1);
        out := out + [Message(m.row.id, m.row.dedup, m.row.tenant, m.row.envelope, m.row.attempts, m.row.maxAttempts)];
        i := i + 1;
      }
      assert batch[..i] == batch;
      assert st.Outbox().rows == Taken(v, batch, e).rows;
    }

    method MarkDelivered(id: string, worker: string, now: int) returns (out: Outcome<()>)
      requires st.Valid()
      modifies st.outbox
      ensures st.Valid() && (Aligned(old(st.Outbox())) ==> Aligned(st.Outbox()))
      ensures out.Ok? <==> id in old(st.Table()) && Applies(old(st.Table())[id], Ack(worker, now))
      ensures out.Err? ==> st.Outbox() == old(st.Outbox())
      ensures out.Ok? ==> st.Table() == old(st.Table())[id := Applied(old(st.Table())[id], Ack(worker, now))]
    {
      hide StoreState.Valid, StoreState.Outbox, StoreState.Table, Aligned;
      Lookup(st, id);
      if id !in st.outboxById {
        return Err(NotFound);
      }
      var m := st.outboxById[id];
      if m.row.status != Leased || m.row.leasedBy != worker {
        return Err(NotFound);
      }
      Write(id, m.row.(status := Delivered, deliveredAt := Some(now), leaseUntil := None));
      return Ok(());
    }

    method FailWithBackoff(id: string, worker: string, now: int, retryIn: int, cause: string) returns (out: Outcome<()>)
      requires st.Valid()
      modifies st.outbox
      ensures st.Valid() && (Aligned(old(st.Outbox())) ==> Aligned(st.Outbox()))
      ensures out.Ok? <==> id in old(st.Table()) && Applies(old(st.Table())[id], Fail(worker, now, retryIn, cause))
      ensures out.Err? ==> st.Outbox() == old(st.Outbox())
      ensures out.Ok? ==>
                st.Table() == old(st.Table())[id := Applied(old(st.Table())[id], Fail(worker, now, retryIn, cause))]
      ensures out.Ok? ==>
                var r := old(st.Table())[id];
                if r.attempts >= r.maxAttempts then st.Table()[id].status == Dead && st.Table()[id].deadAt == Some(now)
                else forall t :: Due(st.Table()[id], t) <==> t >= now + retryIn
      ensures out.Ok? ==>
                var e := st.Table()[id].lastError; e <= cause && |e| <= 512 && (|cause| <= 512 ==> e == cause)
    {
      hide StoreState.Valid, StoreState.Outbox, StoreState.Table, Aligned;
      Lookup(st, id);
      if id !in st.outboxById {
        return Err(NotFound);
      }
      var m := st.outboxById[id];
      if m.row.status != Leased || m.row.leasedBy != worker {
        return Err(NotFound);
      }
      var r := m.row;
      if r.attempts >= r.maxAttempts {
        r := r.(status := Dead, generation := r.generation + 1, deadAt := Some(now));
      } else {
        r := r.(status := Pending, availableAt := now + retryIn);
      }
      Write(id, r.(leaseUntil := None, leasedBy := "", lastError := Truncated(cause)));
      return Ok(());
    }

    /** Operator requeue of a dead row under its current generation. */
    method RequeueDeadLetter(id: string, tenant: string, expected: int, now: int) returns (out: Outcome<int>)
      requires st.Valid()
      modifies st.outbox
      ensures st.Valid() && (Aligned(old(st.Outbox())) ==> Aligned(st.Outbox()))
      ensures out.Ok? <==>
                expected >= 1 && id in old(st.Table()) && Applies(old(st.Table())[id], Requeue(tenant, expected, now))
      ensures out.Err? ==>
                st.Outbox() == old(st.Outbox()) && out.error == Refusal(old(st.Table()), id, tenant, expected)
      ensures out.Ok? ==>
                st.Table() == old(st.Table())[id := Applied(old(st.Table())[id], Requeue(tenant, expected, now))]
      ensures out.Ok? ==> out.value == expected + 1
    {
      hide StoreState.Valid, StoreState.Outbox, StoreState.Table, Aligned;
      Lookup(st, id);
      if expected < 1 {
        return Err(Invalid("outbox_generation"));
      }
      if id !in st.outboxById || st.outboxById[id].row.tenant != tenant {
        return Err(NotFound);
      }
      var m := st.outboxById[id];
      var refused := Classify(m.row, expected);
      if refused.Some? {
        return Err(refused.value);
      }
      Write(id, m.row.(status := Pending, attempts := 0, availableAt := now, leaseUntil := None, leasedBy := "",
                       generation := m.row.generation + 1, deadAt := None));
      return Ok(m.row.generation);
    }

    /** Operator discard of a dead row under its current generation. */
    method DiscardDeadLetter(id: string, tenant: string, expected: int, now: int) returns (out: Outcome<int>)
      requires st.Valid()
      modifies st.outbox
      ensures st.Valid() && (Aligned(old(st.Outbox())) ==> Aligned(st.Outbox()))
      ensures out.Ok? <==>
                expected >= 1 && id in old(st.Table()) && Applies(old(st.Table())[id], Discard(tenant, expected, now))
      ensures out.Err? ==>
                st.Outbox() == old(st.Outbox()) && out.error == Refusal(old(st.Table()), id, tenant, expected)
      ensures out.Ok? ==>
                st.Table() == old(st.Table())[id := Applied(old(st.Table())[id], Discard(tenant, expected, now))]
      ensures out.Ok? ==> out.value == expected + 1
    {
      hide StoreState.Valid, StoreState.Outbox, StoreState.Table, Aligned;
      Lookup(st, id);
      if expected < 1 {
        return Err(Invalid("outbox_generation"));
      }
      if id !in st.outboxById || st.outboxById[id].row.tenant != tenant {
        return Err(NotFound);
      }
      var m := st.outboxById[id];
      var refused := Classify(m.row, expected);
      if refused.Some? {
        return Err(refused.value);
      }
      Write(id, m.row.(status := Discarded, leaseUntil := None, leasedBy := "",
                       generation := m.row.generation + 1, discardedAt := Some(now)));
      return Ok(m.row.generation);
    }

    /** How many rows have each status. */
    method Stats() returns (stats: Counts)
      requires st.Valid()
      ensures stats == CountsOf(st.Outbox())
      ensures stats.pending + stats.leased + stats.delivered + stats.dead + stats.discarded == |st.outbox|
    {
      hide IndexOk, SliceOk, CountsUpTo, CountsOf;
      CountNone(st.Outbox());
      stats := Counts(0, 0, 0, 0, 0);
      var i := 0;
      while i < |st.outbox|
        invariant 0 <= i <= |st.outbox|
        invariant stats == CountsUpTo(st.Outbox(), i)
        invariant stats.pending + stats.leased + stats.delivered + stats.dead + stats.discarded == i
      {
        CountOne(st.Outbox(), i);
        match st.outbox[i].row.status {
          case Pending => stats := stats.(pending := stats.pending + 1);
          case Leased => stats := stats.(leased := stats.leased + 1);
          case Delivered => stats := stats.(delivered := stats.delivered + 1);
          case Dead => stats := stats.(dead := stats.dead + 1);
          case Discarded => stats := stats.(discarded := stats.discarded + 1);
        }
        i := i + 1;
      }
      CountAll(st.Outbox());
    }

    /** One bounded retention round; gone are the rows it deleted. */
    method SweepRetention(req: SweepRequest, now: int)
      returns (out: Outcome<SweepResult>, ghost gone: set<OutboxMessage>)
      requires st.Valid()
      modifies st`outbox, st`outboxById, st`outboxByDedup
      ensures st.Valid() && (Aligned(old(st.Outbox())) ==> Aligned(st.Outbox()))
      ensures forall m :: m in st.outbox ==> m in old(st.outbox)
      ensures out.Ok? <==> req.delivered >= 0 && req.discarded >= 0 && 1 <= req.limit <= 1000
      ensures out.Err? ==> out.error == Invalid(if req.delivered < 0 || req.discarded < 0
                                                then "outbox_retention_horizon" else "outbox_retention_batch")
      ensures out.Ok? ==> out.value == SweepCounts(old(st.Outbox()), now, req)
      ensures out.Err? || req.dryRun ==> st.Outbox() == old(st.Outbox())
      ensures out.Ok? && !req.dryRun && Aligned(old(st.Outbox())) ==> st.Table() == Swept(old(st.Table()), now, req)
      ensures out.Ok? && !req.dryRun ==>
                IsSweep(old(st.Outbox()), now, req, gone, out.value) && st.Outbox() == Drop(old(st.Outbox()), gone)
    {
      hide ViewOk, Aligned, IsSelection, TableOf, Swept, SweepCounts, IsSweep, Drop, StoreState.Outbox;
      gone := {};
      if req.delivered < 0 || req.discarded < 0 {
        return Err(Invalid("outbox_retention_horizon")), gone;
      }
      if req.limit < 1 || req.limit > MAX_SWEEP {
        return Err(Invalid("outbox_retention_batch")), gone;
      }
      var result, victims := ChooseVictims(st, req, now);
      if req.dryRun {
        return Ok(result), gone;
      }
      gone := Elements(victims);
      SweptTable(st.Outbox(), now, req, gone);
      Remove(victims);
      return Ok(result), gone;
    }

    /** Drops the victims from the slice and their keys from the indexes. */
    method Remove(victims: seq<OutboxMessage>)
      requires st.Valid() && Elements(victims) <= st.Outbox().rows.Keys
      modifies st`outbox, st`outboxById, st`outboxByDedup
      ensures st.Valid() && (Aligned(old(st.Outbox())) ==> Aligned(st.Outbox()))
      ensures forall m :: m in st.outbox ==> m in old(st.outbox)
      ensures st.Outbox() == Drop(old(st.Outbox()), Elements(victims))
      ensures st.Table() == old(st.Table()) - IdsOf(old(st.Outbox()), Elements(victims))
    {
      hide ViewOk, Aligned, TableOf, Without, IdsOf, DedupsOf;
      ghost var v, gone := st.Outbox(), Elements(victims);
      DropIsOk(v, gone);
      DropTable(v, gone);
      if Aligned(v) {
        DropAligned(v, gone);
      }
      var remove, byId, byDedup := Unindex(st, victims);
      var kept := Kept(st.outbox, remove);
      st.outboxById, st.outboxByDedup, st.outbox := byId, byDedup, kept;
      DropSlice(v, gone);
      assert st.Outbox().rows == v.rows - gone by {
        assert forall m :: m in kept <==> m in Elements(kept);
      }
    }
  }

  // ----- counts

  datatype Counts = Counts(pending: int, leased: int, delivered: int, dead: int, discarded: int)

  ghost function Having(v: View, among: set<OutboxMessage>, s: Status): (r: set<OutboxMessage>) {
    set m | m in among && m in v.rows && v.rows[m].status == s
  }

  ghost function CountsAmong(v: View, among: set<OutboxMessage>): (c: Counts) {
    Counts(|Having(v, among, Pending)|, |Having(v, among, Leased)|, |Having(v, among, Delivered)|,
           |Having(v, among, Dead)|, |Having(v, among, Discarded)|)
  }

  ghost function CountsOf(v: View): (c: Counts) {
    CountsAmong(v, v.rows.Keys)
  }

  ghost function CountsUpTo(v: View, i: nat): (c: Counts)
    requires i <= |v.slice|
  {
    CountsAmong(v, Elements(v.slice[..i]))
  }

  lemma CountNone(v: View)
    ensures CountsUpTo(v, 0) == Counts(0, 0, 0, 0, 0)
  {
    var none := Elements(v.slice[..0]);
    assert forall s :: Having(v, none, s) == {};
  }

  lemma CountOne(v: View, i: nat)
    requires SliceOk(v) && i < |v.slice|
    ensures v.slice[i] in v.rows
    ensures var c, s := CountsUpTo(v, i), v.rows[v.slice[i]].status;
            CountsUpTo(v, i + 1) ==
              match s
              case Pending => c.(pending := c.pending + 1)
              case Leased => c.(leased := c.leased + 1)
              case Delivered => c.(delivered := c.delivered + 1)
              case Dead => c.(dead := c.dead + 1)
              case Discarded => c.(discarded := c.discarded + 1)
  {
    var m, before := v.slice[i], Elements(v.slice[..i]);
    assert m in Elements(v.slice);
    assert v.slice[..i + 1] == v.slice[..i] + [m];
    assert Elements(v.slice[..i + 1]) == before + {m} && m !in before;
    OneMore(v, before, m, Pending);
    OneMore(v, before, m, Leased);
    OneMore(v, before, m, Delivered);
    OneMore(v, before, m, Dead);
    OneMore(v, before, m, Discarded);
  }

  lemma OneMore(v: View, before: set<OutboxMessage>, m: OutboxMessage, s: Status)
    requires m in v.rows && m !in before
    ensures |Having(v, before + {m}, s)| == |Having(v, before, s)| + if v.rows[m].status == s then 1 else 0
  {
    if v.rows[m].status == s {
      assert Having(v, before + {m}, s) == Having(v, before, s) + {m};
    } else {
      assert Having(v, before + {m}, s) == Having(v, before, s);
    }
  }

  lemma CountAll(v: View)
    requires SliceOk(v)
    ensures CountsUpTo(v, |v.slice|) == CountsOf(v)
  {
    assert v.slice[..|v.slice|] == v.slice;
  }

  // ----- sweeps

  lemma SweptTable(v: View, cutoff: int, req: SweepRequest, gone: set<OutboxMessage>)
    requires ViewOk(v) && ValidSweep(req) && gone <= v.rows.Keys
    requires Aligned(v) ==> IdsOf(v, gone) == Ids(Victims(TableOf(v), cutoff, req))
    ensures Aligned(v) ==> TableOf(v) - IdsOf(v, gone) == Swept(TableOf(v), cutoff, req)
  {
  }

  lemma SelectionCount(v: View, cutoff: int, req: SweepRequest, delivered: seq<OutboxMessage>,
                       discarded: seq<OutboxMessage>)
    requires IsSelection(v, Delivered, cutoff, req.delivered, delivered)
    requires IsSelection(v, Discarded, cutoff, req.discarded, discarded)
    ensures |delivered| == |EligibleOf(v, Delivered, cutoff, req.delivered)|
    ensures |discarded| == |EligibleOf(v, Discarded, cutoff, req.discarded)|
  {
    DistinctCount(delivered, EligibleOf(v, Delivered, cutoff, req.delivered));
    DistinctCount(discarded, EligibleOf(v, Discarded, cutoff, req.discarded));
  }

  lemma VictimsAreStored(v: View, cutoff: int, req: SweepRequest, delivered: seq<OutboxMessage>,
                         discarded: seq<OutboxMessage>, take: nat, rest: nat)
    requires IsSelection(v, Delivered, cutoff, req.delivered, delivered)
    requires IsSelection(v, Discarded, cutoff, req.discarded, discarded)
    requires take <= |delivered| && rest <= |discarded|
    ensures Elements(delivered[..take] + discarded[..rest]) <= v.rows.Keys
    ensures |Elements(delivered[..take] + discarded[..rest])| == take + rest
    ensures forall m :: m in Elements(delivered[..take] + discarded[..rest]) ==> PastHorizon(v.rows[m], cutoff, req)
    ensures Elements(delivered[..take]) ==
              set m | m in Elements(delivered[..take] + discarded[..rest]) && v.rows[m].status == Delivered
  {
    hide Eligible, PastHorizon, KeysOf;
    var ms := delivered[..take] + discarded[..rest];
    forall i | 0 <= i < |ms|
      ensures ms[i] in v.rows && PastHorizon(v.rows[ms[i]], cutoff, req)
      ensures v.rows[ms[i]].status == if i < take then Delivered else Discarded
    {
      assert ms[i] in if i < take then Elements(delivered) else Elements(discarded);
      EligibleIffPastHorizon(v.rows[ms[i]], cutoff, req);
    }
    DistinctCount(ms, Elements(ms));
    forall m | m in Elements(ms) && v.rows[m].status == Delivered ensures m in Elements(delivered[..take]) {
      var i :| 0 <= i < |ms| && ms[i] == m;
      assert i < take && delivered[..take][i] == m;
    }
    forall m | m in Elements(delivered[..take]) ensures m in Elements(ms) && v.rows[m].status == Delivered {
      var i :| 0 <= i < take && delivered[i] == m;
      assert ms[i] == m;
    }
  }

  lemma VictimsAreSweep(v: View, cutoff: int, req: SweepRequest, delivered: seq<OutboxMessage>,
                        discarded: seq<OutboxMessage>, take: nat, rest: nat)
    requires IsSelection(v, Delivered, cutoff, req.delivered, delivered)
    requires IsSelection(v, Discarded, cutoff, req.discarded, discarded)
    requires take == Min(req.limit, |delivered|) && rest == Min(req.limit - take, |discarded|)
    ensures Elements(delivered[..take] + discarded[..rest]) <= v.rows.Keys
    ensures IsSweep(v, cutoff, req, Elements(delivered[..take] + discarded[..rest]), SweepResult(take, rest))
  {
    hide PastHorizon, IsSelection, Eligible;
    VictimsAreStored(v, cutoff, req, delivered, discarded, take, rest);
    PastHorizonCount(v, cutoff, req, delivered, discarded);
    TakenCount(v, Delivered, cutoff, req.delivered, delivered, take);
  }

  lemma TakenCount(v: View, status: Status, cutoff: int, horizon: int, ms: seq<OutboxMessage>, take: nat)
    requires IsSelection(v, status, cutoff, horizon, ms) && take <= |ms|
    ensures |Elements(ms[..take])| == take
  {
    DistinctCount(ms[..take], Elements(ms[..take]));
  }

  lemma PastHorizonCount(v: View, cutoff: int, req: SweepRequest, delivered: seq<OutboxMessage>,
                         discarded: seq<OutboxMessage>)
    requires IsSelection(v, Delivered, cutoff, req.delivered, delivered)
    requires IsSelection(v, Discarded, cutoff, req.discarded, discarded)
    ensures |set m | m in v.rows && PastHorizon(v.rows[m], cutoff, req)| == |delivered| + |discarded|
  {
    hide Eligible, PastHorizon, KeysOf;
    SelectionCount(v, cutoff, req, delivered, discarded);
    var d := EligibleOf(v, Delivered, cutoff, req.delivered);
    var x := EligibleOf(v, Discarded, cutoff, req.discarded);
    forall m | m in v.rows
      ensures m in d || m in x <==> PastHorizon(v.rows[m], cutoff, req)
      ensures !(m in d && m in x)
    {
      EligibleIffPastHorizon(v.rows[m], cutoff, req);
    }
    assert (set m | m in v.rows && PastHorizon(v.rows[m], cutoff, req)) == d + x;
    assert d !! x;
  }
}
