/** The shared state of the in-memory stores. Outbox rows and run claims are changed in
    place, so they are objects; everything else is replaced, never changed. */
module MemoryStore {
  import opened Base
  import opened Claims
  import opened OutboxRow
  import opened OutboxTable

  class OutboxMessage {
    var row: Row

    constructor (r: Row)
      ensures row == r
    {
      row := r;
    }
  }

  class ClaimCell {
    var claim: Claim

    constructor (c: Claim)
      ensures claim == c
    {
      claim := c;
    }
  }

  /** A stored entity that is never changed in place, in serialized form. */
  type Entity = string

  /** The collections whose entities are replaced as a whole. */
  datatype Values = Values(
    tenants: map<string, Entity>, tenantSlugs: map<string, string>, projects: map<string, Entity>,
    threads: map<string, Entity>, messages: map<string, seq<Entity>>, specs: map<string, Entity>,
    tasks: map<string, Entity>, runs: map<string, Entity>, runIdemKeys: map<(string, string), string>,
    runSeqs: map<string, int>, workspaces: map<string, Entity>, artifacts: map<string, Entity>,
    auditLog: seq<Entity>, policyByRun: map<string, seq<Entity>>, integrations: map<string, Entity>)

  /** A stored event; the store assigns its sequence number. */
  datatype LoggedEvent = LoggedEvent(id: string, tenant: string, body: string, number: int)

  // ----- the three views of the outbox, at one moment

  /** The slice, the two indexes, and the row each object holds. */
  datatype View = View(
    slice: seq<OutboxMessage>, byId: map<string, OutboxMessage>, byDedup: map<string, OutboxMessage>,
    rows: map<OutboxMessage, Row>)

  /** The slice lists every object exactly once. */
  ghost predicate SliceOk(v: View) {
    && (forall i, j :: 0 <= i < j < |v.slice| ==> v.slice[i] != v.slice[j])
    && Elements(v.slice) == v.rows.Keys
  }

  /** Every indexed row is a row of the slice, under its own key. */
  ghost predicate IndexOk(v: View) {
    && (forall k :: k in v.byId ==> v.byId[k] in v.rows && v.rows[v.byId[k]].id == k)
    && (forall k :: k in v.byDedup ==> v.byDedup[k] in v.rows && v.rows[v.byDedup[k]].dedup == k)
  }

  ghost predicate ViewOk(v: View) {
    SliceOk(v) && IndexOk(v)
  }

  /** The slice and both indexes hold exactly the same rows. */
  ghost predicate Aligned(v: View) {
    forall m :: m in v.rows ==>
      && v.rows[m].id in v.byId && v.byId[v.rows[m].id] == m
      && v.rows[m].dedup in v.byDedup && v.byDedup[v.rows[m].dedup] == m
  }

  /** The rows by id. */
  ghost function TableOf(v: View): (t: Rows)
    requires IndexOk(v)
  {
    map k | k in v.byId :: v.rows[v.byId[k]]
  }

  /** A row written in place. */
  ghost function Put(v: View, m: OutboxMessage, r: Row): (after: View) {
    v.(rows := v.rows[m := r])
  }

  /** A new object added to all three views. */
  ghost function Add(v: View, m: OutboxMessage, r: Row): (after: View) {
    View(v.slice + [m], v.byId[r.id := m], v.byDedup[r.dedup := m], v.rows[m := r])
  }

  lemma PutIsOk(v: View, m: OutboxMessage, r: Row)
    requires ViewOk(v) && m in v.rows && r.id == v.rows[m].id && r.dedup == v.rows[m].dedup
    ensures ViewOk(Put(v, m, r))
  {
    assert v.rows[m := r].Keys == v.rows.Keys;
  }

  lemma PutAligned(v: View, m: OutboxMessage, r: Row)
    requires Aligned(v) && m in v.rows && r.id == v.rows[m].id && r.dedup == v.rows[m].dedup
    ensures Aligned(Put(v, m, r))
  {
  }

  lemma PutTable(v: View, m: OutboxMessage, r: Row)
    requires IndexOk(v) && IndexOk(Put(v, m, r)) && m in v.rows && r.id == v.rows[m].id && r.id in v.byId &&
             v.byId[r.id] == m
    ensures TableOf(Put(v, m, r)) == TableOf(v)[r.id := r]
  {
    assert TableOf(Put(v, m, r)).Keys == TableOf(v).Keys + {r.id};
  }

  /** A write in place keeps the views and is seen in the table. */
  lemma PutKeeps(v: View, m: OutboxMessage, r: Row)
    requires ViewOk(v) && m in v.rows && r.id == v.rows[m].id && r.dedup == v.rows[m].dedup
    ensures ViewOk(Put(v, m, r))
    ensures Aligned(v) ==> Aligned(Put(v, m, r))
    ensures r.id in v.byId && v.byId[r.id] == m ==> TableOf(Put(v, m, r)) == TableOf(v)[r.id := r]
  {
    hide SliceOk, IndexOk, Aligned, TableOf;
    PutIsOk(v, m, r);
    if Aligned(v) {
      PutAligned(v, m, r);
    }
    if r.id in v.byId && v.byId[r.id] == m {
      PutTable(v, m, r);
    }
  }

  lemma AddIsOk(v: View, m: OutboxMessage, r: Row)
    requires IndexOk(v) && m !in v.rows && r.dedup !in v.byDedup
    ensures IndexOk(Add(v, m, r))
  {
  }

  lemma AddTable(v: View, m: OutboxMessage, r: Row)
    requires IndexOk(v) && m !in v.rows && IndexOk(Add(v, m, r))
    ensures TableOf(Add(v, m, r)) == TableOf(v)[r.id := r]
  {
    assert TableOf(Add(v, m, r)).Keys == TableOf(v).Keys + {r.id};
  }

  lemma AddAligned(v: View, m: OutboxMessage, r: Row)
    requires IndexOk(v) && Aligned(v) && m !in v.rows && r.dedup !in v.byDedup
    ensures Aligned(Add(v, m, r)) <==> r.id !in v.byId
  {
    var after := Add(v, m, r);
    if r.id in v.byId {
      var lost := v.byId[r.id];
      assert lost in after.rows && after.rows[lost].id == r.id && after.byId[r.id] == m;
    }
  }

  /** Adding under a new dedup key keeps the views aligned exactly when the id is new too. */
  lemma AddKeeps(v: View, m: OutboxMessage, r: Row)
    requires ViewOk(v) && m !in v.rows && r.dedup !in v.byDedup
    ensures ViewOk(Add(v, m, r))
    ensures TableOf(Add(v, m, r)) == TableOf(v)[r.id := r]
    ensures Aligned(v) ==> (Aligned(Add(v, m, r)) <==> r.id !in v.byId)
  {
    hide SliceOk, IndexOk, Aligned, TableOf;
    AddToSlice(v, m, r);
    AddIsOk(v, m, r);
    AddTable(v, m, r);
    if Aligned(v) {
      AddAligned(v, m, r);
    }
  }

  lemma AddToSlice(v: View, m: OutboxMessage, r: Row)
    requires SliceOk(v) && m !in v.rows
    ensures SliceOk(Add(v, m, r))
  {
    var after := Add(v, m, r);
    assert m !in Elements(v.slice);
    assert Elements(after.slice) == Elements(v.slice) + {m};
    assert after.rows.Keys == v.rows.Keys + {m};
  }

  /** The rows the listed objects hold. */
  ghost function RowsOf(ms: seq<OutboxMessage>): (rows: map<OutboxMessage, Row>)
    reads ms
  {
    map m | m in ms :: m.row
  }

  class StoreState {
    var outbox: seq<OutboxMessage>
    var outboxById: map<string, OutboxMessage>
    var outboxByDedup: map<string, OutboxMessage>
    var runClaims: map<string, ClaimCell>
    var values: Values
    var events: seq<LoggedEvent>
    var eventSeq: int
    const outboxMaxAttempts: int

    ghost function Outbox(): (v: View)
      reads this, outbox
    {
      View(outbox, outboxById, outboxByDedup, RowsOf(outbox))
    }

    ghost predicate Valid()
      reads this, outbox
    {
      && 1 <= outboxMaxAttempts <= 100
      && ViewOk(Outbox())
      && (forall k, l :: k in runClaims && l in runClaims && runClaims[k] == runClaims[l] ==> k == l)
    }

    ghost function Table(): (t: Rows)
      requires Valid()
      reads this, outbox
    {
      TableOf(Outbox())
    }

    ghost function ClaimCells(): (r: set<ClaimCell>)
      reads this
    {
      set k | k in runClaims :: runClaims[k]
    }

    constructor (maxAttempts: int, values: Values)
      requires 1 <= maxAttempts <= 100
      ensures Valid() && Aligned(Outbox()) && outbox == [] && runClaims == map[]
      ensures this.values == values && eventSeq == 0 && events == []
      ensures outboxMaxAttempts == maxAttempts
    {
      outbox, outboxById, outboxByDedup, runClaims := [], map[], map[], map[];
      this.values, events, eventSeq, outboxMaxAttempts := values, [], 0, maxAttempts;
    }
  }

  // ----- what alignment means

  /** Aligned views denote one duplicate-free set of rows: the table is one to one, and the
      slice and both indexes list each of its rows exactly once. */
  lemma AlignedViews(v: View)
    requires ViewOk(v) && Aligned(v)
    ensures OneToOne(TableOf(v))
    ensures Elements(v.slice) == v.byId.Values == v.byDedup.Values
    ensures |TableOf(v)| == |v.slice|
    ensures forall d :: d in v.byDedup <==> DedupKnown(TableOf(v), d)
  {
    assert Elements(v.slice) == v.rows.Keys;
    SliceIds(v);
    hide SliceOk, OneToOne, DedupKnown, TableOf;
    AlignedTable(v);
    IndexedValues(v.byId, v.rows.Keys);
    IndexedValues(v.byDedup, v.rows.Keys);
  }

  lemma IndexedValues(index: map<string, OutboxMessage>, all: set<OutboxMessage>)
    requires forall k :: k in index ==> index[k] in all
    requires forall m :: m in all ==> exists k :: k in index && index[k] == m
    ensures index.Values == all
  {
  }

  lemma AlignedTable(v: View)
    requires IndexOk(v) && Aligned(v)
    ensures OneToOne(TableOf(v))
    ensures forall d :: d in v.byDedup <==> DedupKnown(TableOf(v), d)
  {
    var t := TableOf(v);
    forall d ensures d in v.byDedup <==> DedupKnown(t, d) {
      if d in v.byDedup {
        var m := v.byDedup[d];
        assert t[v.rows[m].id].dedup == d;
      }
    }
  }

  lemma SliceIds(v: View)
    requires ViewOk(v) && Aligned(v)
    ensures |TableOf(v)| == |v.slice|
  {
    var t := TableOf(v);
    assert forall i :: 0 <= i < |v.slice| ==> v.slice[i] in Elements(v.slice);
    var ids := seq(|v.slice|, i requires 0 <= i < |v.slice| => v.rows[v.slice[i]].id);
    forall i, j | 0 <= i < j < |ids| ensures ids[i] != ids[j] {
      assert v.slice[i] != v.slice[j];
    }
    forall k | k in t.Keys ensures k in ids {
      assert v.byId[k] in Elements(v.slice);
      var i :| 0 <= i < |v.slice| && v.slice[i] == v.byId[k];
      assert ids[i] == k;
    }
    assert Elements(ids) == t.Keys;
    DistinctCount(ids, t.Keys);
    assert |t| == |t.Keys|;
  }
}
