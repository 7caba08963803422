/** Units of work over the in-memory stores: a snapshot before, put back on error or panic. */
module UnitOfWork {
  import opened Base
  import opened Claims
  import opened OutboxRow
  import opened MemoryStore

  // ----- when two views show the same store

  /** The same rows in the same order, and every index entry at the same place of the slice:
      equal contents and equal aliasing, over possibly different objects. */
  ghost predicate SameShape(v: View, w: View) {
    && |v.slice| == |w.slice|
    && (forall i :: 0 <= i < |v.slice| ==>
          v.slice[i] in v.rows && w.slice[i] in w.rows && v.rows[v.slice[i]] == w.rows[w.slice[i]])
    && SameIndex(v.slice, v.byId, w.slice, w.byId)
    && SameIndex(v.slice, v.byDedup, w.slice, w.byDedup)
  }

  ghost predicate SameIndex(a: seq<OutboxMessage>, x: map<string, OutboxMessage>,
                            b: seq<OutboxMessage>, y: map<string, OutboxMessage>)
    requires |a| == |b|
  {
    && x.Keys == y.Keys
    && forall i, k :: 0 <= i < |a| && k in x && x[k] == a[i] ==> y[k] == b[i]
  }

  lemma At(v: View, m: OutboxMessage) returns (i: nat)
    requires SliceOk(v) && m in v.rows
    ensures i < |v.slice| && v.slice[i] == m
  {
    assert m in Elements(v.slice);
    i :| 0 <= i < |v.slice| && v.slice[i] == m;
  }

  lemma SameKeys(v: View, w: View)
    requires SameShape(v, w)
    ensures v.byId.Keys == w.byId.Keys && v.byDedup.Keys == w.byDedup.Keys
  {
  }

  /** An index entry denotes the same place, hence the same row, in both. */
  lemma SameEntry(v: View, w: View, k: string)
    requires SliceOk(v) && SameShape(v, w)
    ensures k in v.byId && v.byId[k] in v.rows ==>
              k in w.byId && w.byId[k] in w.rows && w.rows[w.byId[k]] == v.rows[v.byId[k]]
    ensures k in v.byDedup && v.byDedup[k] in v.rows ==>
              k in w.byDedup && w.byDedup[k] in w.rows && w.rows[w.byDedup[k]] == v.rows[v.byDedup[k]]
  {
    if k in v.byId && v.byId[k] in v.rows {
      var i := At(v, v.byId[k]);
    }
    if k in v.byDedup && v.byDedup[k] in v.rows {
      var i := At(v, v.byDedup[k]);
    }
  }

  /** Views of the same shape have the same table. */
  lemma SameTable(v: View, w: View)
    requires ViewOk(v) && ViewOk(w) && SameShape(v, w)
    ensures TableOf(v) == TableOf(w)
  {
    hide SliceOk, SameShape;
    SameKeys(v, w);
    forall k | k in v.byId ensures w.rows[w.byId[k]] == v.rows[v.byId[k]] {
      SameEntry(v, w, k);
    }
    assert TableOf(v).Keys == TableOf(w).Keys;
  }

  /** Views of the same shape are aligned together. */
  lemma SameAlignment(v: View, w: View)
    requires ViewOk(v) && ViewOk(w) && SameShape(v, w) && Aligned(v)
    ensures Aligned(w)
  {
    forall m | m in w.rows
      ensures w.rows[m].id in w.byId && w.byId[w.rows[m].id] == m
      ensures w.rows[m].dedup in w.byDedup && w.byDedup[w.rows[m].dedup] == m
    {
      var i := At(w, m);
      assert v.byId[v.rows[v.slice[i]].id] == v.slice[i] && v.byDedup[v.rows[v.slice[i]].dedup] == v.slice[i];
    }
  }

  /** The same write at one place of both keeps the shapes equal. */
  lemma SameWrites(v: View, w: View, i: nat, r: Row)
    requires SliceOk(v) && SliceOk(w) && SameShape(v, w) && i < |v.slice|
    ensures SameShape(Put(v, v.slice[i], r), Put(w, w.slice[i], r))
  {
    hide SameIndex, SliceOk;
    forall j | 0 <= j < |v.slice|
      ensures Put(v, v.slice[i], r).rows[v.slice[j]] == Put(w, w.slice[i], r).rows[w.slice[j]]
    {
      OnePlace(v, i, j);
      OnePlace(w, i, j);
    }
  }

  lemma OnePlace(v: View, i: nat, j: nat)
    requires SliceOk(v) && i < |v.slice| && j < |v.slice|
    ensures v.slice[i] == v.slice[j] <==> i == j
  {
  }

  /** A write through one index is seen in the slice and through the other index: after a
      restore as in the store that was backed up. */
  lemma WriteIsSeenByAll(v: View, w: View, id: string, r: Row)
    requires ViewOk(v) && ViewOk(w) && Aligned(v) && SameShape(v, w) && id in v.byId
    requires r.id == id && r.dedup == v.rows[v.byId[id]].dedup
    ensures id in w.byId && r.dedup in w.byDedup && w.byDedup[r.dedup] == w.byId[id]
    ensures exists i :: 0 <= i < |w.slice| && w.slice[i] == w.byId[id] && v.slice[i] == v.byId[id]
    ensures Put(w, w.byId[id], r).rows[w.byDedup[r.dedup]] == r
    ensures TableOf(w) == TableOf(v) && ViewOk(Put(w, w.byId[id], r)) &&
            TableOf(Put(w, w.byId[id], r)) == TableOf(v)[id := r]
  {
    SameAlignment(v, w);
    SameEntry(v, w, id);
    var i := At(v, v.byId[id]);
    assert w.byId[id] == w.slice[i] by { SamePlace(v, w, id, i); }
    hide SliceOk, SameShape, Aligned;
    SameTable(v, w);
    AlignedEntry(w, id);
    hide IndexOk, TableOf;
    PutKeeps(w, w.byId[id], r);
  }

  lemma SamePlace(v: View, w: View, id: string, i: nat)
    requires SameShape(v, w) && id in v.byId && i < |v.slice| && v.slice[i] == v.byId[id]
    ensures id in w.byId && w.byId[id] == w.slice[i]
  {
  }

  lemma AlignedEntry(w: View, id: string)
    requires IndexOk(w) && Aligned(w) && id in w.byId
    ensures w.byId[id] in w.rows && w.rows[w.byId[id]].id == id
    ensures w.rows[w.byId[id]].dedup in w.byDedup && w.byDedup[w.rows[w.byId[id]].dedup] == w.byId[id]
  {
  }

  // ----- backup and restore

  /** A detached copy of every collection and counter. */
  datatype Backup = Backup(
    outbox: seq<OutboxMessage>, byId: map<string, OutboxMessage>, byDedup: map<string, OutboxMessage>,
    claims: map<string, ClaimCell>, values: Values, events: seq<LoggedEvent>, eventSeq: int)

  ghost function ClaimsOf(cells: map<string, ClaimCell>): (t: map<string, Claim>)
    reads set k | k in cells :: cells[k]
  {
    map k | k in cells :: cells[k].claim
  }

  ghost function BackupView(b: Backup): (v: View)
    reads b.outbox
  {
    View(b.outbox, b.byId, b.byDedup, RowsOf(b.outbox))
  }

  ghost predicate Distinct(cells: map<string, ClaimCell>) {
    forall k, l :: k in cells && l in cells && cells[k] == cells[l] ==> k == l
  }

  /** Clones the slice, one clone per row. */
  method CloneRows(rows: seq<OutboxMessage>) returns (clones: seq<OutboxMessage>)
    ensures |clones| == |rows| && forall i :: 0 <= i < |rows| ==> fresh(clones[i]) && clones[i].row == rows[i].row
    ensures forall i, j :: 0 <= i < j < |rows| ==> clones[i] != clones[j]
  {
    clones := [];
    while |clones| < |rows|
      invariant |clones| <= |rows|
      invariant forall i :: 0 <= i < |clones| ==> fresh(clones[i]) && clones[i].row == rows[i].row
      invariant forall i, j :: 0 <= i < j < |clones| ==> clones[i] != clones[j]
    {
      var c := new OutboxMessage(rows[|clones|].row);
      clones := clones + [c];
    }
  }

  /** An index over the clones, entry by entry through the clone map. */
  method CloneIndex(rows: seq<OutboxMessage>, clones: seq<OutboxMessage>, cloneOf: map<OutboxMessage, OutboxMessage>,
                    index: map<string, OutboxMessage>) returns (copy: map<string, OutboxMessage>)
    requires |clones| == |rows| && forall i :: 0 <= i < |rows| ==> rows[i] in cloneOf && cloneOf[rows[i]] == clones[i]
    requires forall k :: k in index ==> index[k] in cloneOf
    ensures SameIndex(rows, index, clones, copy)
    ensures forall k :: k in index ==> copy[k] == cloneOf[index[k]]
  {
    copy := map[];
    var rest := index.Keys;
    while rest != {}
      invariant rest <= index.Keys && copy.Keys == index.Keys - rest
      invariant forall k :: k in copy ==> copy[k] == cloneOf[index[k]]
      decreases |rest|
    {
      var k :| k in rest;
      copy := copy[k := cloneOf[index[k]]];
      rest := rest - {k};
    }
  }

  method CloneMap(rows: seq<OutboxMessage>, clones: seq<OutboxMessage>)
    returns (cloneOf: map<OutboxMessage, OutboxMessage>)
    requires |clones| == |rows| && forall i, j :: 0 <= i < j < |rows| ==> rows[i] != rows[j]
    ensures forall i :: 0 <= i < |rows| ==> rows[i] in cloneOf && cloneOf[rows[i]] == clones[i]
    ensures cloneOf.Keys == Elements(rows)
  {
    cloneOf := map[];
    var i := 0;
    while i < |rows|
      invariant 0 <= i <= |rows|
      invariant forall k :: 0 <= k < i ==> rows[k] in cloneOf && cloneOf[rows[k]] == clones[k]
      invariant cloneOf.Keys == Elements(rows[..i])
    {
      assert rows[..i + 1] == rows[..i] + [rows[i]];
      cloneOf := cloneOf[rows[i] := clones[i]];
      i := i + 1;
    }
    assert rows[..i] == rows;
  }

  method CloneClaims(cells: map<string, ClaimCell>) returns (copy: map<string, ClaimCell>)
    ensures ClaimsOf(copy) == old(ClaimsOf(cells)) && Distinct(copy)
    ensures forall k :: k in copy ==> fresh(copy[k])
  {
    copy := map[];
    var rest := cells.Keys;
    while rest != {}
      invariant rest <= cells.Keys && copy.Keys == cells.Keys - rest && Distinct(copy)
      invariant forall k :: k in copy ==> fresh(copy[k]) && copy[k].claim == cells[k].claim
      decreases |rest|
    {
      var k :| k in rest;
      var c := new ClaimCell(cells[k].claim);
      copy := copy[k := c];
      rest := rest - {k};
    }
  }

  /** Clones the three outbox views through one clone map, so that they stay aligned. */
  method CloneOutbox(st: StoreState)
    returns (clones: seq<OutboxMessage>, byId: map<string, OutboxMessage>, byDedup: map<string, OutboxMessage>)
    requires ViewOk(st.Outbox())
    ensures forall i :: 0 <= i < |clones| ==> fresh(clones[i])
    ensures ViewOk(View(clones, byId, byDedup, RowsOf(clones)))
    ensures SameShape(old(st.Outbox()), View(clones, byId, byDedup, RowsOf(clones)))
  {
    hide SameShape, ViewOk, SameIndex;
    ghost var v := st.Outbox();
    ViewParts(v);
    clones := CloneRows(st.outbox);
    var cloneOf := CloneMap(st.outbox, clones);
    byId := CloneIndex(st.outbox, clones, cloneOf, st.outboxById);
    byDedup := CloneIndex(st.outbox, clones, cloneOf, st.outboxByDedup);
    assert Elements(clones) == RowsOf(clones).Keys;
    assert forall i :: 0 <= i < |clones| ==> clones[i] in clones && st.outbox[i] in st.outbox;
    ClonesMirror(v, View(clones, byId, byDedup, RowsOf(clones)));
  }

  /** Clones the live state: fresh objects, same contents, same aliasing. */
  method MakeBackup(st: StoreState) returns (b: Backup)
    requires st.Valid()
    ensures forall i :: 0 <= i < |b.outbox| ==> fresh(b.outbox[i])
    ensures forall k :: k in b.claims ==> fresh(b.claims[k])
    ensures ViewOk(BackupView(b)) && SameShape(old(st.Outbox()), BackupView(b))
    ensures Distinct(b.claims) && ClaimsOf(b.claims) == old(ClaimsOf(st.runClaims))
    ensures b.values == st.values && b.events == st.events && b.eventSeq == st.eventSeq
  {
    hide SameShape, ViewOk, Distinct;
    var clones, byId, byDedup := CloneOutbox(st);
    var claims := CloneClaims(st.runClaims);
    b := Backup(clones, byId, byDedup, claims, st.values, st.events, st.eventSeq);
  }

  lemma ViewParts(v: View)
    requires ViewOk(v)
    ensures Elements(v.slice) == v.rows.Keys && forall i, j :: 0 <= i < j < |v.slice| ==> v.slice[i] != v.slice[j]
    ensures forall k :: k in v.byId ==> v.byId[k] in v.rows
    ensures forall k :: k in v.byDedup ==> v.byDedup[k] in v.rows
  {
  }

  lemma ClonesMirror(v: View, w: View)
    requires ViewOk(v) && |w.slice| == |v.slice|
    requires forall i, j :: 0 <= i < j < |w.slice| ==> w.slice[i] != w.slice[j]
    requires Elements(w.slice) == w.rows.Keys
    requires forall i :: 0 <= i < |v.slice| ==>
               v.slice[i] in v.rows && w.slice[i] in w.rows && w.rows[w.slice[i]] == v.rows[v.slice[i]]
    requires SameIndex(v.slice, v.byId, w.slice, w.byId) && SameIndex(v.slice, v.byDedup, w.slice, w.byDedup)
    ensures SameShape(v, w) && ViewOk(w)
  {
    forall k | k in w.byId ensures w.byId[k] in w.rows && w.rows[w.byId[k]].id == k {
      var i := At(v, v.byId[k]);
    }
    forall k | k in w.byDedup ensures w.byDedup[k] in w.rows && w.rows[w.byDedup[k]].dedup == k {
      var i := At(v, v.byDedup[k]);
    }
  }

  /** Puts the backup back into the live state. */
  method Restore(st: StoreState, b: Backup)
    requires ViewOk(BackupView(b)) && Distinct(b.claims) && 1 <= st.outboxMaxAttempts <= 100
    modifies st
    ensures st.Valid() && st.Outbox() == BackupView(b) && st.outbox == b.outbox && st.runClaims == b.claims
    ensures st.values == b.values && st.events == b.events && st.eventSeq == b.eventSeq
  {
    st.outbox, st.outboxById, st.outboxByDedup, st.runClaims := b.outbox, b.byId, b.byDedup, b.claims;
    st.values, st.events, st.eventSeq := b.values, b.events, b.eventSeq;
    assert st.Outbox().rows == BackupView(b).rows;
  }
}
