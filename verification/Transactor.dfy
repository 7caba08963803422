/** Programs over the stores: operations, units of work, errors and panics, nested at will. */
module Transactor {
  import opened Base
  import opened Claims
  import opened OutboxRow
  import opened OutboxTable
  import opened OutboxSweep
  import opened MemoryStore
  import opened OutboxStore
  import opened EventLog
  import opened UnitOfWork
  import opened UnitSemantics

  /** Every collection and counter of the store is as it was, with the same aliasing. */
  twostate predicate Restored(st: StoreState)
    reads st, st.outbox, set k | k in st.runClaims :: st.runClaims[k]
  {
    && SameShape(old(st.Outbox()), st.Outbox())
    && ClaimsOf(st.runClaims) == old(ClaimsOf(st.runClaims))
    && st.values == old(st.values) && st.events == old(st.events) && st.eventSeq == old(st.eventSeq)
  }

  // ----- ids and dedup keys in correspondence

  /** g pairs dedup keys with ids one to one. */
  ghost predicate Pairs(g: string -> string) {
    forall a, b :: g(a) == g(b) ==> a == b
  }

  /** Event rows can be paired: some such g gives Append's ids for Append's keys. */
  lemma EventsCanBePaired() returns (g: string -> string)
    ensures Pairs(g) && forall e: string :: g("event:" + e) == "obx_" + e
  {
    g := (d: string) => if "event:" <= d then "obx_" + d[6..] else "raw:" + d;
    forall a, b | g(a) == g(b) ensures a == b {
      assert g(a)[0] == 'o' <==> "event:" <= a;
      assert g(b)[0] == 'o' <==> "event:" <= b;
      assert g(a)[4..] == g(b)[4..];
      if "event:" <= a {
        assert g(a)[4..] == a[6..] && g(b)[4..] == b[6..];
        assert a == "event:" + a[6..] && b == "event:" + b[6..];
      } else {
        assert g(a)[4..] == a && g(b)[4..] == b;
      }
    }
    forall e: string ensures g("event:" + e) == "obx_" + e {
      assert ("event:" + e)[6..] == e;
    }
  }

  /** Whatever the program enqueues, it enqueues under paired keys. */
  ghost predicate Follows(p: Prog, g: string -> string)
    decreases p
  {
    match p
    case Call(op) => OpFollows(op, g)
    case Then(first, second) => Follows(first, g) && Follows(second, g)
    case Unit(body) => Follows(body, g)
    case Try(body) => Follows(body, g)
    case _ => true
  }

  ghost predicate OpFollows(op: Op, g: string -> string) {
    match op
    case PublishMessage(msg, _) => msg.id == g(msg.dedup)
    case AppendEvent(id, _, _, _) => "obx_" + id == g("event:" + id)
    case _ => true
  }

  /** The three views are aligned and every row sits under the id paired with its key. */
  ghost predicate InStep(v: View, g: string -> string) {
    ViewOk(v) && Aligned(v) && Keyed(v, g)
  }

  ghost predicate Keyed(v: View, g: string -> string) {
    forall m :: m in v.rows ==> v.rows[m].id == g(v.rows[m].dedup)
  }

  /** Under paired keys a new dedup key is a new id. */
  lemma NewKeyNewId(v: View, g: string -> string, dedup: string)
    requires InStep(v, g) && Pairs(g)
    ensures g(dedup) in v.byId ==> dedup in v.byDedup
  {
    if g(dedup) in v.byId {
      var m := v.byId[g(dedup)];
      assert m in v.rows && v.rows[m].id == g(v.rows[m].dedup);
    }
  }

  lemma KeyedTable(v: View, g: string -> string)
    requires ViewOk(v) && Aligned(v)
    ensures Keyed(v, g) <==> forall id :: id in TableOf(v) ==> id == g(TableOf(v)[id].dedup)
  {
    hide SliceOk;
    forall m | m in v.rows ensures v.rows[m].id in TableOf(v) && TableOf(v)[v.rows[m].id] == v.rows[m] {
    }
  }

  /** Changing a row without touching its keys keeps the correspondence. */
  lemma KeyedUpdate(v: View, w: View, g: string -> string, id: string, r: Row)
    requires ViewOk(v) && ViewOk(w) && Aligned(w) && InStep(v, g)
    requires TableOf(w) == TableOf(v)[id := r] && id == g(r.dedup)
    ensures InStep(w, g)
  {
    hide SliceOk, IndexOk, Aligned, Keyed, TableOf;
    KeyedTable(v, g);
    KeyedTable(w, g);
  }

  lemma KeyedRow(v: View, g: string -> string, id: string)
    requires InStep(v, g) && id in v.byId
    ensures id in TableOf(v) && id == g(TableOf(v)[id].dedup)
  {
  }

  lemma AppliedKeepsKeys(r: Row, e: Event)
    ensures Applied(r, e).id == r.id && Applied(r, e).dedup == r.dedup
  {
  }

  lemma KeyedTaken(v: View, batch: seq<OutboxMessage>, e: Event, g: string -> string)
    requires Keyed(v, g)
    ensures Keyed(Taken(v, batch, e), g)
  {
    hide Applied;
    forall m | m in v.rows
      ensures Applied(v.rows[m], e).id == v.rows[m].id && Applied(v.rows[m], e).dedup == v.rows[m].dedup
    {
      AppliedKeepsKeys(v.rows[m], e);
    }
  }

  lemma KeyedDrop(v: View, gone: set<OutboxMessage>, g: string -> string)
    requires Keyed(v, g) && gone <= v.rows.Keys
    ensures Keyed(Drop(v, gone), g)
  {
  }

  lemma KeyedShape(v: View, w: View, g: string -> string)
    requires InStep(v, g) && ViewOk(w) && SameShape(v, w)
    ensures InStep(w, g)
  {
    hide Keyed;
    SameAlignment(v, w);
    SameTable(v, w);
    hide SliceOk, IndexOk, Aligned, SameShape, TableOf;
    KeyedTable(v, g);
    KeyedTable(w, g);
  }

  /** The store holds only objects it held before or fresh ones. */
  twostate predicate OnlyFresh(st: StoreState)
    reads st
  {
    && (forall i :: 0 <= i < |st.outbox| ==> st.outbox[i] in old(st.outbox) || fresh(st.outbox[i]))
    && (forall c :: c in st.ClaimCells() ==> c in old(st.ClaimCells()) || fresh(c))
  }

  lemma Indexes(st: StoreState)
    ensures st.Outbox().byId == st.outboxById && st.Outbox().byDedup == st.outboxByDedup
  {
  }

  lemma TableIndex(v: View, id: string)
    requires ViewOk(v)
    ensures id in TableOf(v) <==> id in v.byId
  {
  }

  /** The contents of the store. */
  ghost function ContentsOf(st: StoreState): (s: Contents)
    requires st.Valid()
    reads st, st.outbox, st.ClaimCells()
  {
    Contents(st.Table(), ClaimsOf(st.runClaims), st.values, st.events, st.eventSeq)
  }

  /** With aligned views the index by dedup key knows what the table knows. */
  lemma DedupIndex(v: View, dedup: string)
    requires ViewOk(v) && Aligned(v)
    ensures dedup in v.byDedup <==> DedupKnown(TableOf(v), dedup)
  {
    AlignedViews(v);
  }

  ghost function BatchIds(v: View, batch: seq<OutboxMessage>): (ids: set<string>) {
    set m | m in batch && m in v.rows :: v.rows[m].id
  }

  /** A batch of objects leased is a batch of rows of the table leased. */
  lemma BatchOfTable(v: View, now: int, limit: nat, batch: seq<OutboxMessage>, e: Event)
    requires ViewOk(v) && Aligned(v) && IsBatch(v, now, limit, batch) && ViewOk(Taken(v, batch, e))
    ensures OldestDue(TableOf(v), now, limit, BatchIds(v, batch))
    ensures TableOf(Taken(v, batch, e)) == TakenRows(TableOf(v), BatchIds(v, batch), e)
  {
    hide ViewOk, Aligned, IsBatch, OldestDue, TakenRows, BatchIds, Taken, TableOf;
    BatchIsOldest(v, now, limit, batch);
    BatchIsTaken(v, batch, e);
  }

  lemma BatchIsTaken(v: View, batch: seq<OutboxMessage>, e: Event)
    requires ViewOk(v) && Aligned(v) && ViewOk(Taken(v, batch, e))
    ensures TableOf(Taken(v, batch, e)) == TakenRows(TableOf(v), BatchIds(v, batch), e)
  {
    hide SliceOk, Aligned, BatchIds, Applied;
    forall id | id in v.byId ensures id in BatchIds(v, batch) <==> v.byId[id] in batch {
      IdInBatch(v, batch, id);
    }
  }

  lemma IdInBatch(v: View, batch: seq<OutboxMessage>, id: string)
    requires IndexOk(v) && Aligned(v) && id in v.byId
    ensures id in BatchIds(v, batch) <==> v.byId[id] in batch
  {
  }

  lemma BatchIsOldest(v: View, now: int, limit: nat, batch: seq<OutboxMessage>)
    requires ViewOk(v) && Aligned(v) && IsBatch(v, now, limit, batch)
    ensures OldestDue(TableOf(v), now, limit, BatchIds(v, batch))
  {
    hide SliceOk, Due;
    var t, ids := TableOf(v), BatchIds(v, batch);
    SameSize(v, Elements(batch), ids);
    DistinctCount(batch, Elements(batch));
    SameSize(v, DueOf(v, now), DueIds(t, now));
    forall a, b | a in ids && b in DueIds(t, now) && b !in ids ensures t[a].createdAt <= t[b].createdAt {
      assert v.byId[a] in batch && v.byId[b] in DueOf(v, now) && v.byId[b] !in batch;
    }
  }

  /** Objects and their ids correspond one to one. */
  lemma {:induction false} SameSize(v: View, ms: set<OutboxMessage>, ids: set<string>)
    requires Aligned(v) && ms <= v.rows.Keys && ids == IdsOf(v, ms)
    ensures |ids| == |ms|
    decreases |ms|
  {
    if ms != {} {
      var m :| m in ms;
      SameSize(v, ms - {m}, IdsOf(v, ms - {m}));
      assert ids == IdsOf(v, ms - {m}) + {v.rows[m].id};
      assert v.rows[m].id !in IdsOf(v, ms - {m}) by {
        assert v.byId[v.rows[m].id] == m;
      }
    }
  }

  class Runner {
    const st: StoreState
    const outbox: OutboxRepository
    const events: EventRepository

    constructor (events: EventRepository)
      requires events.outbox.st == events.st
      ensures this.events == events && outbox == events.outbox && st == events.st
    {
      this.events, this.outbox, this.st := events, events.outbox, events.st;
    }

    ghost predicate Ready()
      reads this, st, st.outbox
    {
      events.st == st && events.outbox == outbox && outbox.st == st && st.Valid()
    }

    /** One store operation, reporting its error if it has one. */
    method Perform(op: Op, ghost g: string -> string) returns (res: Result)
      requires Ready()
      modifies st, st.outbox, st.ClaimCells()
      ensures Ready() && OnlyFresh(st)
      ensures res == if Refuses(op, old(st.Table())) then Failed else Done
      ensures Pairs(g) && OpFollows(op, g) && InStep(old(st.Outbox()), g) ==>
                && InStep(st.Outbox(), g)
                && Effect(op, st.outboxMaxAttempts, old(ContentsOf(st)), ContentsOf(st), res)
    {
      hide ViewOk, Aligned, TableOf, StoreState.Outbox, InStep, Pairs;
      match op {
        case WriteClaim(run, claim) =>
          PutClaim(run, claim);
          res := Done;
        case DeleteClaim(run) =>
          RemoveClaim(run);
          res := Done;
        case ReplaceValues(values) =>
          Replace(values);
          res := Done;
        case PublishMessage(_, _) => res := PerformEnqueue(op, g);
        case AppendEvent(_, _, _, _) => res := PerformEnqueue(op, g);
        case SweepMessages(_, _) => res := PerformBatch(op, g);
        case LeaseBatch(_, _, _, _) => res := PerformBatch(op, g);
        case _ => res := PerformUpdate(op, g);
      }
    }

    method PerformEnqueue(op: Op, ghost g: string -> string) returns (res: Result)
      requires Ready() && (op.PublishMessage? || op.AppendEvent?)
      modifies st`outbox, st`outboxById, st`outboxByDedup, st`events, st`eventSeq
      ensures Ready() && OnlyFresh(st)
      ensures res == if Refuses(op, old(st.Table())) then Failed else Done
      ensures Pairs(g) && OpFollows(op, g) && InStep(old(st.Outbox()), g) ==>
                && InStep(st.Outbox(), g)
                && Effect(op, st.outboxMaxAttempts, old(ContentsOf(st)), ContentsOf(st), res)
    {
      hide ViewOk, Aligned, TableOf, StoreState.Outbox, Keyed, Pairs;
      ghost var v := st.Outbox();
      ghost var ok := Pairs(g) && OpFollows(op, g) && InStep(v, g);
      ghost var dedup := if op.PublishMessage? then op.msg.dedup else "event:" + op.id;
      if ok {
        Indexes(st);
        NewKeyNewId(v, g, dedup);
        DedupIndex(v, dedup);
      }
      if op.PublishMessage? {
        var out := outbox.Publish(op.msg, op.now);
        res := if out.Ok? then Done else Failed;
      } else {
        var out := events.Append(op.id, op.tenant, op.envelope, op.now);
        res := if out.Ok? then Done else Failed;
      }
      if ok && st.Outbox() != v {
        KeyedUpdate(v, st.Outbox(), g, g(dedup), st.Table()[g(dedup)]);
      }
    }

    method PerformUpdate(op: Op, ghost g: string -> string) returns (res: Result)
      requires Ready() && Addresses(op)
      modifies st.outbox
      ensures Ready()
      ensures res == if Refuses(op, old(st.Table())) then Failed else Done
      ensures InStep(old(st.Outbox()), g) ==>
                && InStep(st.Outbox(), g)
                && Effect(op, st.outboxMaxAttempts, old(ContentsOf(st)), ContentsOf(st), res)
    {
      hide ViewOk, Aligned, TableOf, StoreState.Outbox, Keyed, Applied, Applies;
      ghost var v, t := st.Outbox(), st.Table();
      ghost var e;
      var ok;
      match op {
        case AckMessage(id, worker, now) =>
          var out := outbox.MarkDelivered(id, worker, now);
          e, ok := Event.Ack(worker, now), out.Ok?;
        case FailMessage(id, worker, now, retryIn, cause) =>
          var out := outbox.FailWithBackoff(id, worker, now, retryIn, cause);
          e, ok := Event.Fail(worker, now, retryIn, cause), out.Ok?;
        case RequeueMessage(id, tenant, expected, now) =>
          var out := outbox.RequeueDeadLetter(id, tenant, expected, now);
          e, ok := Event.Requeue(tenant, expected, now), out.Ok?;
        case DiscardMessage(id, tenant, expected, now) =>
          var out := outbox.DiscardDeadLetter(id, tenant, expected, now);
          e, ok := Event.Discard(tenant, expected, now), out.Ok?;
      }
      res := if ok then Done else Failed;
      if ok && InStep(v, g) {
        TableIndex(v, op.id);
        KeyedRow(v, g, op.id);
        AppliedKeepsKeys(t[op.id], e);
        KeyedUpdate(v, st.Outbox(), g, op.id, Applied(t[op.id], e));
      }
    }

    method PerformBatch(op: Op, ghost g: string -> string) returns (res: Result)
      requires Ready() && (op.LeaseBatch? || op.SweepMessages?)
      modifies st`outbox, st`outboxById, st`outboxByDedup, st.outbox
      ensures Ready() && OnlyFresh(st)
      ensures res == if Refuses(op, old(st.Table())) then Failed else Done
      ensures InStep(old(st.Outbox()), g) ==>
                && InStep(st.Outbox(), g)
                && Effect(op, st.outboxMaxAttempts, old(ContentsOf(st)), ContentsOf(st), res)
    {
      hide ViewOk, Aligned, TableOf, StoreState.Outbox, Keyed, Taken, Drop, IsBatch, SweepCounts, Swept, IsSweep;
      ghost var v := st.Outbox();
      if op.LeaseBatch? {
        ghost var batch;
        var leased;
        leased, batch := outbox.Lease(op.worker, op.leaseFor, op.limit, op.now);
        if InStep(v, g) {
          KeyedTaken(v, batch, Event.Take(op.worker, op.now, op.now + op.leaseFor), g);
          BatchOfTable(v, op.now, op.limit, batch, Event.Take(op.worker, op.now, op.now + op.leaseFor));
        }
        res := Done;
      } else {
        ghost var gone;
        var out;
        out, gone := outbox.SweepRetention(op.req, op.now);
        if InStep(v, g) && out.Ok? && !op.req.dryRun {
          SweptWereStored(v, op.now, op.req, gone, out.value);
          KeyedDrop(v, gone, g);
        }
        res := if out.Ok? then Done else Failed;
      }
    }

    method PutClaim(run: string, claim: Claim)
      requires Ready()
      modifies st`runClaims, st.ClaimCells()
      ensures Ready() && fresh(st.ClaimCells() - old(st.ClaimCells())) && st.outbox == old(st.outbox) &&
              st.Outbox() == old(st.Outbox())
      ensures ClaimsOf(st.runClaims) == old(ClaimsOf(st.runClaims))[run := claim]
    {
      ghost var rows := RowsOf(st.outbox);
      if run in st.runClaims {
        st.runClaims[run].claim := claim;
      } else {
        var cell := new ClaimCell(claim);
        st.runClaims := st.runClaims[run := cell];
      }
      assert RowsOf(st.outbox) == rows;
    }

    method RemoveClaim(run: string)
      requires Ready()
      modifies st`runClaims
      ensures Ready() && st.ClaimCells() <= old(st.ClaimCells()) && st.Outbox() == old(st.Outbox())
      ensures ClaimsOf(st.runClaims) == old(ClaimsOf(st.runClaims)) - {run}
    {
      ghost var rows := RowsOf(st.outbox);
      st.runClaims := st.runClaims - {run};
      assert RowsOf(st.outbox) == rows;
    }

    method Replace(values: Values)
      requires Ready()
      modifies st`values
      ensures Ready() && st.Outbox() == old(st.Outbox()) && st.values == values
    {
      ghost var rows := RowsOf(st.outbox);
      st.values := values;
      assert RowsOf(st.outbox) == rows;
    }

    /** Runs a program. A unit inside another joins it; the outermost unit puts the backup
        back when its body errors or panics. */
    method Exec(p: Prog, inUnit: bool, ghost g: string -> string) returns (res: Result)
      requires Ready()
      modifies st, st.outbox, st.ClaimCells()
      ensures Ready() && OnlyFresh(st)
      ensures res in Ends(p)
      ensures p.Unit? && !inUnit && res != Done ==> Restored(st)
      ensures Pairs(g) && Follows(p, g) && InStep(old(st.Outbox()), g) ==>
                && InStep(st.Outbox(), g)
                && Runs(p, inUnit, st.outboxMaxAttempts, old(ContentsOf(st)), ContentsOf(st), res)
      decreases p, 0
    {
      hide Restored, InStep, Pairs, OpFollows, StoreState.Outbox;
      match p {
        case Skip => res := Done;
        case Fail => res := Failed;
        case Panic => res := Panicked;
        case Call(op) => res := Perform(op, g);
        case Try(body) =>
          res := Exec(body, inUnit, g);
          if res == Failed {
            res := Done;
          }
        case Then(first, second) =>
          res := Exec(first, inUnit, g);
          if res == Done {
            res := Exec(second, inUnit, g);
          }
        case Unit(body) =>
          if inUnit {
            res := Exec(body, true, g);
          } else {
            res := Do(body, g);
          }
      }
    }

    /** An outermost unit: whatever its body did, an error or a panic leaves every collection
        and counter as before. */
    method Do(body: Prog, ghost g: string -> string) returns (res: Result)
      requires Ready()
      modifies st, st.outbox, st.ClaimCells()
      ensures Ready() && OnlyFresh(st)
      ensures res in Ends(body)
      ensures res != Done ==> Restored(st)
      ensures Pairs(g) && Follows(body, g) && InStep(old(st.Outbox()), g) ==>
                && InStep(st.Outbox(), g)
                && Runs(Unit(body), false, st.outboxMaxAttempts, old(ContentsOf(st)), ContentsOf(st), res)
      decreases body, 1
    {
      hide ViewOk, SameShape, Distinct, StoreState.Outbox, InStep, Pairs, Follows, TableOf, Ends, Runs;
      ghost var before, contents := st.Outbox(), ContentsOf(st);
      ghost var ok := Pairs(g) && Follows(body, g) && InStep(before, g);
      var backup := MakeBackup(st);
      ghost var view, claims := BackupView(backup), ClaimsOf(backup.claims);
      res := Exec(body, true, g);
      ghost var mid := ContentsOf(st);
      if res != Done {
        assert BackupView(backup) == view;
        assert ClaimsOf(backup.claims) == claims;
        hide BackupView, ClaimsOf;
        Undo(backup, before, contents, g);
        if ok {
          UnitUndoes(body, st.outboxMaxAttempts, contents, mid, res);
        }
      } else if ok {
        UnitCommits(body, st.outboxMaxAttempts, contents, mid);
      }
    }

    /** Puts back the backup of a store that showed v and held s. */
    method Undo(backup: Backup, ghost v: View, ghost s: Contents, ghost g: string -> string)
      requires Ready() && ViewOk(v) && ViewOk(BackupView(backup)) && SameShape(v, BackupView(backup))
      requires s == Contents(TableOf(v), ClaimsOf(backup.claims), backup.values, backup.events, backup.eventSeq)
      requires Distinct(backup.claims)
      modifies st
      ensures Ready() && SameShape(v, st.Outbox()) && ContentsOf(st) == s
      ensures st.outbox == backup.outbox && st.runClaims == backup.claims
      ensures InStep(v, g) ==> InStep(st.Outbox(), g)
    {
      hide ViewOk, SameShape, Distinct, StoreState.Outbox, InStep, TableOf;
      Restore(st, backup);
      SameTable(v, st.Outbox());
      if InStep(v, g) {
        KeyedShape(v, st.Outbox(), g);
      }
    }
  }
}
