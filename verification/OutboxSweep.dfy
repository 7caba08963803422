/** Selecting and removing the rows of a retention round. */
module OutboxSweep {
  import opened Base
  import opened OutboxRow
  import opened OutboxTable
  import opened MemoryStore

  ghost function EligibleOf(v: View, status: Status, cutoff: int, horizon: int): (r: set<OutboxMessage>) {
    set m | m in v.rows && Eligible(v.rows[m], status, cutoff, horizon)
  }

  /** The sweep keys of listed messages. */
  ghost function KeysOf(v: View, ms: seq<OutboxMessage>): (ks: seq<Key>)
    requires forall m :: m in ms ==> m in v.rows
    ensures |ks| == |ms| && forall i :: 0 <= i < |ms| ==> ms[i] in v.rows && ks[i] == SweepKey(v.rows[ms[i]])
  {
    seq(|ms|, i requires 0 <= i < |ms| => assert ms[i] in ms; SweepKey(v.rows[ms[i]]))
  }

  /** The eligible rows of one class, oldest first. */
  ghost predicate IsSelection(v: View, status: Status, cutoff: int, horizon: int, ms: seq<OutboxMessage>) {
    && (forall i, j :: 0 <= i < j < |ms| ==> ms[i] != ms[j])
    && Elements(ms) == EligibleOf(v, status, cutoff, horizon)
    && (forall m :: m in ms ==> m in v.rows)
    && (forall i, j :: 0 <= i < j < |ms| ==> !Less(KeysOf(v, ms)[j], KeysOf(v, ms)[i]))
  }

  method SelectVictims(st: StoreState, status: Status, cutoff: int, horizon: int) returns (ms: seq<OutboxMessage>)
    requires st.Valid()
    ensures IsSelection(st.Outbox(), status, cutoff, horizon, ms)
    ensures status == Delivered ==> forall m :: m in ms <==>
              m in st.Outbox().rows && horizon > 0 && m.row.status == Delivered &&
              m.row.deliveredAt.Some? && m.row.deliveredAt.value + horizon <= cutoff
    ensures status == Discarded ==> forall m :: m in ms <==>
              m in st.Outbox().rows && horizon > 0 && m.row.status == Discarded &&
              m.row.discardedAt.Some? && m.row.discardedAt.value + horizon <= cutoff
  {
    hide Eligible, IndexOk, SweepKey, Less;
    var pairs: seq<(Key, OutboxMessage)> := [];
    var i := 0;
    while i < |st.outbox|
      invariant 0 <= i <= |st.outbox|
      invariant forall k, l :: 0 <= k < l < |pairs| ==> pairs[k] != pairs[l]
      invariant forall x :: x in pairs <==>
                  x.1 in st.outbox[..i] && Eligible(x.1.row, status, cutoff, horizon) && x.0 == SweepKey(x.1.row)
    {
      var m := st.outbox[i];
      assert st.outbox[..i + 1] == st.outbox[..i] + [m];
      assert m !in st.outbox[..i];
      if Eligible(m.row, status, cutoff, horizon) {
        pairs := pairs + [(SweepKey(m.row), m)];
      }
      i := i + 1;
    }
    assert st.outbox[..i] == st.outbox;
    SortProps(pairs);
    var sorted := Sort(pairs);
    RearrangedDistinct(pairs, sorted);
    ms := [];
    i := 0;
    while i < |sorted|
      invariant 0 <= i <= |sorted| && |ms| == i
      invariant forall k :: 0 <= k < i ==> ms[k] == sorted[k].1
    {
      ms := ms + [sorted[i].1];
      i := i + 1;
    }
    SelectionSorted(st.Outbox(), status, cutoff, horizon, pairs, sorted, ms);
    SelectionIs(st.Outbox(), status, cutoff, horizon, ms);
  }

  /** A selection in the fields of its rows. */
  lemma SelectionIs(v: View, status: Status, cutoff: int, horizon: int, ms: seq<OutboxMessage>)
    requires IsSelection(v, status, cutoff, horizon, ms)
    ensures status == Delivered ==> forall m :: m in ms <==>
              m in v.rows && horizon > 0 && v.rows[m].status == Delivered &&
              v.rows[m].deliveredAt.Some? && v.rows[m].deliveredAt.value + horizon <= cutoff
    ensures status == Discarded ==> forall m :: m in ms <==>
              m in v.rows && horizon > 0 && v.rows[m].status == Discarded &&
              v.rows[m].discardedAt.Some? && v.rows[m].discardedAt.value + horizon <= cutoff
  {
    forall m ensures m in ms <==> m in v.rows && Eligible(v.rows[m], status, cutoff, horizon) {
      assert m in ms <==> m in Elements(ms);
    }
  }

  lemma SelectionSorted(v: View, status: Status, cutoff: int, horizon: int, pairs: seq<(Key, OutboxMessage)>,
                        sorted: seq<(Key, OutboxMessage)>, ms: seq<OutboxMessage>)
    requires forall x :: x in pairs ==>
               x.1 in v.rows && Eligible(v.rows[x.1], status, cutoff, horizon) && x.0 == SweepKey(v.rows[x.1])
    requires forall m :: m in EligibleOf(v, status, cutoff, horizon) ==> (SweepKey(v.rows[m]), m) in pairs
    requires forall x :: x in sorted <==> x in pairs
    requires Sorted(sorted) && forall i, j :: 0 <= i < j < |sorted| ==> sorted[i] != sorted[j]
    requires |ms| == |sorted| && forall k :: 0 <= k < |ms| ==> ms[k] == sorted[k].1
    ensures IsSelection(v, status, cutoff, horizon, ms)
  {
    hide EligibleOf, Eligible, SweepKey, Less, Sorted;
    SelectionElements(v, status, cutoff, horizon, pairs, sorted, ms);
    assert forall m :: m in ms ==> m in v.rows by {
      assert forall m :: m in ms ==> m in Elements(ms);
    }
    forall k | 0 <= k < |sorted| ensures sorted[k].1 in v.rows && sorted[k].0 == SweepKey(v.rows[sorted[k].1]) {
      assert sorted[k] in sorted;
    }
    assert KeysOf(v, ms) == Keys(sorted);
    SortedKeys(sorted);
  }

  lemma SortedKeys(sorted: seq<(Key, OutboxMessage)>)
    requires Sorted(sorted)
    ensures forall i, j :: 0 <= i < j < |sorted| ==> !Less(Keys(sorted)[j], Keys(sorted)[i])
  {
  }

  lemma SelectionElements(v: View, status: Status, cutoff: int, horizon: int, pairs: seq<(Key, OutboxMessage)>,
                          sorted: seq<(Key, OutboxMessage)>, ms: seq<OutboxMessage>)
    requires forall x :: x in pairs ==>
               x.1 in v.rows && Eligible(v.rows[x.1], status, cutoff, horizon) && x.0 == SweepKey(v.rows[x.1])
    requires forall m :: m in EligibleOf(v, status, cutoff, horizon) ==> (SweepKey(v.rows[m]), m) in pairs
    requires forall x :: x in sorted <==> x in pairs
    requires |ms| == |sorted| && forall k :: 0 <= k < |ms| ==> ms[k] == sorted[k].1
    ensures Elements(ms) == EligibleOf(v, status, cutoff, horizon)
    ensures Elements(ms) <= v.rows.Keys
  {
    hide Eligible, SweepKey;
    forall k | 0 <= k < |sorted| ensures ms[k] in EligibleOf(v, status, cutoff, horizon) {
      assert sorted[k] in sorted;
    }
    forall m | m in EligibleOf(v, status, cutoff, horizon) ensures m in ms {
      assert (SweepKey(v.rows[m]), m) in sorted;
      var k :| 0 <= k < |sorted| && sorted[k] == (SweepKey(v.rows[m]), m);
      assert ms[k] == m;
    }
  }

  /** With aligned views the selection lists the table's eligible keys in ascending order. */
  lemma SelectionKeys(v: View, status: Status, cutoff: int, horizon: int, ms: seq<OutboxMessage>)
    requires ViewOk(v) && Aligned(v) && IsSelection(v, status, cutoff, horizon, ms)
    ensures KeysOf(v, ms) == Ascending(EligibleKeys(TableOf(v), status, cutoff, horizon))
  {
    hide SliceOk, Eligible, Less;
    var ks, t := KeysOf(v, ms), TableOf(v);
    forall i, j | 0 <= i < j < |ks| ensures Less(ks[i], ks[j]) {
      assert ms[i] in ms && ms[j] in ms;
      DifferentKeys(v, ms[i], ms[j]);
      LessTotal(ks[i], ks[j]);
    }
    forall k | k in EligibleKeys(t, status, cutoff, horizon) ensures k in ks {
      var id :| id in t && Eligible(t[id], status, cutoff, horizon) && SweepKey(t[id]) == k;
      assert v.byId[id] in EligibleOf(v, status, cutoff, horizon);
      assert v.byId[id] in Elements(ms);
      var i :| 0 <= i < |ms| && ms[i] == v.byId[id];
      assert ks[i] == k;
    }
    forall i | 0 <= i < |ks| ensures ks[i] in EligibleKeys(t, status, cutoff, horizon) {
      assert ms[i] in Elements(ms);
      var r := v.rows[ms[i]];
      assert t[r.id] == r;
    }
    assert Elements(ks) == EligibleKeys(t, status, cutoff, horizon);
    IncreasingUnique(ks, Ascending(EligibleKeys(t, status, cutoff, horizon)));
  }

  lemma DifferentKeys(v: View, a: OutboxMessage, b: OutboxMessage)
    requires Aligned(v) && a in v.rows && b in v.rows && a != b
    ensures SweepKey(v.rows[a]) != SweepKey(v.rows[b])
  {
    assert v.byId[v.rows[a].id] == a && v.byId[v.rows[b].id] == b;
  }

  // ----- removal

  function Without(ms: seq<OutboxMessage>, gone: set<OutboxMessage>): (r: seq<OutboxMessage>)
    decreases |ms|
  {
    if ms == [] then []
    else if ms[|ms| - 1] in gone then Without(ms[..|ms| - 1], gone)
    else Without(ms[..|ms| - 1], gone) + [ms[|ms| - 1]]
  }

  lemma {:induction false} WithoutKeeps(ms: seq<OutboxMessage>, gone: set<OutboxMessage>)
    requires forall i, j :: 0 <= i < j < |ms| ==> ms[i] != ms[j]
    ensures Elements(Without(ms, gone)) == Elements(ms) - gone
    ensures forall i, j :: 0 <= i < j < |Without(ms, gone)| ==> Without(ms, gone)[i] != Without(ms, gone)[j]
    decreases |ms|
  {
    if ms != [] {
      var last, rest := ms[|ms| - 1], ms[..|ms| - 1];
      WithoutKeeps(rest, gone);
      assert ms == rest + [last];
      assert Elements(ms) == Elements(rest) + {last};
      assert forall i :: 0 <= i < |rest| ==> rest[i] == ms[i];
      assert last !in rest;
      if last !in gone {
        var w := Without(rest, gone);
        assert Elements(w + [last]) == Elements(w) + {last};
        assert last !in Elements(w);
      }
    }
  }

  ghost function IdsOf(v: View, gone: set<OutboxMessage>): (r: set<string>)
    requires gone <= v.rows.Keys
  {
    set m | m in gone :: v.rows[m].id
  }

  ghost function DedupsOf(v: View, gone: set<OutboxMessage>): (r: set<string>)
    requires gone <= v.rows.Keys
  {
    set m | m in gone :: v.rows[m].dedup
  }

  /** The views without some objects and without their keys. */
  ghost function Drop(v: View, gone: set<OutboxMessage>): (after: View)
    requires gone <= v.rows.Keys
  {
    View(Without(v.slice, gone), v.byId - IdsOf(v, gone), v.byDedup - DedupsOf(v, gone), v.rows - gone)
  }

  lemma DropIsOk(v: View, gone: set<OutboxMessage>)
    requires ViewOk(v) && gone <= v.rows.Keys
    ensures ViewOk(Drop(v, gone))
  {
    WithoutKeeps(v.slice, gone);
    assert (v.rows - gone).Keys == v.rows.Keys - gone;
  }

  lemma DropSlice(v: View, gone: set<OutboxMessage>)
    requires ViewOk(v) && gone <= v.rows.Keys
    ensures Elements(Without(v.slice, gone)) == v.rows.Keys - gone
  {
    WithoutKeeps(v.slice, gone);
  }

  lemma DropAligned(v: View, gone: set<OutboxMessage>)
    requires Aligned(v) && gone <= v.rows.Keys
    ensures Aligned(Drop(v, gone))
  {
    var after := Drop(v, gone);
    forall m | m in after.rows
      ensures v.rows[m].id !in IdsOf(v, gone) && v.rows[m].dedup !in DedupsOf(v, gone)
    {
      assert v.byId[v.rows[m].id] == m && v.byDedup[v.rows[m].dedup] == m;
    }
  }

  lemma DropTable(v: View, gone: set<OutboxMessage>)
    requires ViewOk(v) && gone <= v.rows.Keys && ViewOk(Drop(v, gone))
    ensures TableOf(Drop(v, gone)) == TableOf(v) - IdsOf(v, gone)
  {
  }

  /** With aligned views the objects taken are the table's victims. */
  lemma VictimsOf(v: View, cutoff: int, req: SweepRequest, delivered: seq<OutboxMessage>, discarded: seq<OutboxMessage>,
                  take: nat, rest: nat)
    requires ViewOk(v) && Aligned(v) && ValidSweep(req)
    requires IsSelection(v, Delivered, cutoff, req.delivered, delivered)
    requires IsSelection(v, Discarded, cutoff, req.discarded, discarded)
    requires take == Min(req.limit, |delivered|) && rest == Min(req.limit - take, |discarded|)
    ensures Elements(delivered[..take] + discarded[..rest]) <= v.rows.Keys
    ensures IdsOf(v, Elements(delivered[..take] + discarded[..rest])) == Ids(Victims(TableOf(v), cutoff, req))
  {
    hide ViewOk, Aligned, EligibleKeys, TableOf, IsSelection, Ascending, KeysOf, IdsOf, Ids, Increasing;
    SelectionStored(v, Delivered, cutoff, req.delivered, delivered);
    SelectionStored(v, Discarded, cutoff, req.discarded, discarded);
    SelectionKeys(v, Delivered, cutoff, req.delivered, delivered);
    SelectionKeys(v, Discarded, cutoff, req.discarded, discarded);
    KeysConcat(v, delivered, take, discarded, rest);
    KeyIds(v, delivered[..take] + discarded[..rest]);
  }

  lemma SelectionStored(v: View, status: Status, cutoff: int, horizon: int, ms: seq<OutboxMessage>)
    requires IsSelection(v, status, cutoff, horizon, ms)
    ensures forall m :: m in ms ==> m in v.rows
  {
  }

  lemma KeysConcat(v: View, a: seq<OutboxMessage>, n: nat, b: seq<OutboxMessage>, k: nat)
    requires n <= |a| && k <= |b| && forall m :: m in a || m in b ==> m in v.rows
    ensures forall m :: m in a[..n] + b[..k] ==> m in v.rows
    ensures KeysOf(v, a[..n] + b[..k]) == KeysOf(v, a)[..n] + KeysOf(v, b)[..k]
  {
    hide SweepKey;
    assert forall m :: m in a[..n] + b[..k] ==> m in a || m in b;
  }

  lemma KeyIds(v: View, ms: seq<OutboxMessage>)
    requires forall m :: m in ms ==> m in v.rows
    ensures Elements(ms) <= v.rows.Keys
    ensures IdsOf(v, Elements(ms)) == Ids(KeysOf(v, ms))
  {
    var ks := KeysOf(v, ms);
    forall id | id in IdsOf(v, Elements(ms)) ensures id in Ids(ks) {
      var m :| m in Elements(ms) && v.rows[m].id == id;
      var i :| 0 <= i < |ms| && ms[i] == m;
      assert ks[i] in ks;
    }
    forall id | id in Ids(ks) ensures id in IdsOf(v, Elements(ms)) {
      var k :| k in ks && k.id == id;
      var i :| 0 <= i < |ks| && ks[i] == k;
      assert ms[i] in Elements(ms);
    }
  }
}
