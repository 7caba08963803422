/** Appending an event enqueues its delivery in the same step. */
module EventLog {
  import opened Base
  import opened OutboxRow
  import opened MemoryStore
  import opened OutboxStore

  class EventRepository {
    const st: StoreState
    const outbox: OutboxRepository

    constructor (outbox: OutboxRepository)
      ensures this.outbox == outbox && st == outbox.st
    {
      this.outbox, this.st := outbox, outbox.st;
    }

    /** Numbers the event, enqueues its delivery once and stores it. envelope is None when
        the event cannot be serialized: then only the counter moved. */
    method Append(id: string, tenant: string, envelope: Option<string>, now: int) returns (out: Outcome<int>)
      requires outbox.st == st && st.Valid()
      modifies st`outbox, st`outboxById, st`outboxByDedup, st`events, st`eventSeq
      ensures st.Valid()
      ensures forall m :: m in st.outbox ==> m in old(st.outbox) || fresh(m)
      ensures st.eventSeq == old(st.eventSeq) + 1
      ensures out == if envelope.Some? then Ok(st.eventSeq) else Err(Invalid("outbox_envelope"))
      ensures st.events == old(st.events) +
                (if envelope.Some? then [LoggedEvent(id, tenant, envelope.value, st.eventSeq)] else [])
      ensures envelope.None? || "event:" + id in old(st.outboxByDedup) ==> st.Outbox() == old(st.Outbox())
      ensures envelope.Some? && "event:" + id !in old(st.outboxByDedup) ==>
                st.Table() == old(st.Table())["obx_" + id :=
                  NewRow("obx_" + id, "event:" + id, tenant, envelope.value, st.outboxMaxAttempts, now)]
      ensures Aligned(old(st.Outbox())) ==>
                (Aligned(st.Outbox()) <==>
                   envelope.None? || "event:" + id in old(st.outboxByDedup) || "obx_" + id !in old(st.outboxById))
    {
      hide ViewOk, Aligned, TableOf;
      ghost var v := st.Outbox();
      st.eventSeq := st.eventSeq + 1;
      assert st.Outbox().rows == v.rows;
      if envelope.None? {
        return Err(Invalid("outbox_envelope"));
      }
      if "event:" + id !in st.outboxByDedup {
        var _ := outbox.Enqueue(
          NewRow("obx_" + id, "event:" + id, tenant, envelope.value, st.outboxMaxAttempts, now));
      }
      v := st.Outbox();
      st.events := st.events + [LoggedEvent(id, tenant, envelope.value, st.eventSeq)];
      assert st.Outbox().rows == v.rows;
      return Ok(st.eventSeq);
    }
  }
}
