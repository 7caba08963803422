/** The run store: per-thread sequence numbers, idempotency keys and history pages. */
module RunHistory {
  import opened Base

  /** A stored run; body is everything that never takes part in addressing it. */
  datatype Run = Run(id: string, tenant: string, thread: string, key: string, number: int, version: int, body: string)

  datatype IdemKey = IdemKey(tenant: string, thread: string, key: string)

  predicate SameIdentity(a: Run, b: Run) {
    a.id == b.id && a.tenant == b.tenant && a.thread == b.thread && a.key == b.key && a.number == b.number
  }

  function KeyOf(r: Run): (k: IdemKey) {
    IdemKey(r.tenant, r.thread, r.key)
  }

  type Runs = map<string, Run>

  function Last(seqs: map<string, int>, thread: string): (n: int) {
    if thread in seqs then seqs[thread] else 0
  }

  /** The numbers of a thread's runs are exactly 1..n, each used once. */
  ghost predicate Dense(runs: Runs, seqs: map<string, int>) {
    && (forall id :: id in runs ==> runs[id].id == id && 1 <= runs[id].number <= Last(seqs, runs[id].thread))
    && (forall a, b ::
          a in runs && b in runs && runs[a].thread == runs[b].thread && runs[a].number == runs[b].number ==> a == b)
    && (forall thread, n :: 1 <= n <= Last(seqs, thread) ==> Numbered(runs, thread, n))
  }

  predicate Holds(runs: Runs, thread: string, n: int, id: string) {
    id in runs && runs[id].thread == thread && runs[id].number == n
  }

  ghost predicate Numbered(runs: Runs, thread: string, n: int) {
    exists id :: Holds(runs, thread, n, id)
  }

  /** Idempotency keys and runs correspond one to one. */
  ghost predicate KeysOk(runs: Runs, keys: map<IdemKey, string>) {
    && (forall id :: id in runs ==> KeyOf(runs[id]) in keys && keys[KeyOf(runs[id])] == id)
    && (forall k :: k in keys ==> keys[k] in runs && KeyOf(runs[keys[k]]) == k)
  }

  /** Every run belongs to the tenant of its thread. */
  ghost predicate Owned(runs: Runs, threads: map<string, string>) {
    forall id :: id in runs ==> runs[id].thread in threads && threads[runs[id].thread] == runs[id].tenant
  }

  ghost function RunAt(runs: Runs, seqs: map<string, int>, thread: string, n: int): (r: Run)
    requires Dense(runs, seqs) && 1 <= n <= Last(seqs, thread)
    ensures r.id in runs && runs[r.id] == r && r.thread == thread && r.number == n
  {
    assert Numbered(runs, thread, n);
    var id :| Holds(runs, thread, n, id);
    runs[id]
  }

  /** A thread's runs in creation order. */
  ghost function History(runs: Runs, seqs: map<string, int>, thread: string): (h: seq<Run>)
    requires Dense(runs, seqs) && Last(seqs, thread) >= 0
    ensures |h| == Last(seqs, thread)
    ensures forall i :: 0 <= i < |h| ==>
              h[i].number == i + 1 && h[i].thread == thread && h[i].id in runs && runs[h[i].id] == h[i]
  {
    seq(Last(seqs, thread), i requires 0 <= i < Last(seqs, thread) => RunAt(runs, seqs, thread, i + 1))
  }

  /** The history holds every run of the thread exactly once. */
  lemma HistoryIsComplete(runs: Runs, seqs: map<string, int>, thread: string, id: string)
    requires Dense(runs, seqs) && Last(seqs, thread) >= 0
    ensures id in runs && runs[id].thread == thread ==> runs[id] in History(runs, seqs, thread)
    ensures forall i, j :: 0 <= i < j < |History(runs, seqs, thread)| ==>
              History(runs, seqs, thread)[i].id != History(runs, seqs, thread)[j].id
  {
    var h := History(runs, seqs, thread);
    if id in runs && runs[id].thread == thread {
      var n := runs[id].number;
      assert h[n - 1].id == id;
    }
  }

  /** The runs numbered above `after`, in order, at most limit of them when limit is positive. */
  function Page(h: seq<Run>, after: int, limit: int): (p: seq<Run>) {
    var rest := if after <= 0 then h else if after >= |h| then [] else h[after..];
    if 0 < limit < |rest| then rest[..limit] else rest
  }

  // ----- creation

  lemma CreateKeepsDense(runs: Runs, seqs: map<string, int>, r: Run)
    requires Dense(runs, seqs) && r.id !in runs && r.number == Last(seqs, r.thread) + 1 && Last(seqs, r.thread) >= 0
    ensures Dense(runs[r.id := r], seqs[r.thread := r.number])
    ensures History(runs[r.id := r], seqs[r.thread := r.number], r.thread) == History(runs, seqs, r.thread) + [r]
  {
    var after, next := runs[r.id := r], seqs[r.thread := r.number];
    forall thread, n | 1 <= n <= Last(next, thread) ensures Numbered(after, thread, n) {
      if thread == r.thread && n == r.number {
        assert Holds(after, thread, n, r.id);
      } else {
        assert Numbered(runs, thread, n);
        var id :| Holds(runs, thread, n, id);
        assert Holds(after, thread, n, id);
      }
    }
    CreateExtends(runs, seqs, r);
  }

  lemma CreateExtends(runs: Runs, seqs: map<string, int>, r: Run)
    requires Dense(runs, seqs) && r.id !in runs && r.number == Last(seqs, r.thread) + 1 && Last(seqs, r.thread) >= 0
    requires Dense(runs[r.id := r], seqs[r.thread := r.number])
    ensures History(runs[r.id := r], seqs[r.thread := r.number], r.thread) == History(runs, seqs, r.thread) + [r]
  {
    var h, g := History(runs, seqs, r.thread), History(runs[r.id := r], seqs[r.thread := r.number], r.thread);
    forall i | 0 <= i < |g| ensures g[i] == (h + [r])[i] {
      if i < |h| {
        assert h[i].id in runs[r.id := r];
      }
    }
  }

  /** Replacing a run by one of the same identity keeps numbers and keys. */
  lemma UpdateKeeps(runs: Runs, seqs: map<string, int>, keys: map<IdemKey, string>, threads: map<string, string>,
                    r: Run)
    requires Dense(runs, seqs) && KeysOk(runs, keys) && Owned(runs, threads)
    requires r.id in runs && SameIdentity(r, runs[r.id])
    ensures Dense(runs[r.id := r], seqs) && KeysOk(runs[r.id := r], keys) && Owned(runs[r.id := r], threads)
  {
    UpdateKeepsDense(runs, seqs, r);
    hide Dense;
  }

  lemma UpdateKeepsDense(runs: Runs, seqs: map<string, int>, r: Run)
    requires Dense(runs, seqs) && r.id in runs && SameIdentity(r, runs[r.id])
    ensures Dense(runs[r.id := r], seqs)
  {
    var after := runs[r.id := r];
    forall thread, n | 1 <= n <= Last(seqs, thread) ensures Numbered(after, thread, n) {
      assert Numbered(runs, thread, n);
      var id :| Holds(runs, thread, n, id);
      assert Holds(after, thread, n, id);
    }
  }

  class RunRepository {
    var threads: map<string, string>
    var runs: Runs
    var idemKeys: map<IdemKey, string>
    var seqs: map<string, int>

    ghost predicate Valid()
      reads this
    {
      && (forall t :: t in seqs ==> seqs[t] >= 0)
      && Dense(runs, seqs) && KeysOk(runs, idemKeys) && Owned(runs, threads)
    }

    constructor (threads: map<string, string>)
      ensures Valid() && runs == map[] && this.threads == threads
    {
      this.threads, runs, idemKeys, seqs := threads, map[], map[], map[];
    }

    /** Stores a run under the next number of its thread, once per idempotency key. */
    method Create(run: Run) returns (out: Outcome<int>)
      requires Valid()
      modifies `runs, `idemKeys, `seqs
      ensures Valid()
      ensures out.Ok? <==> run.thread in threads && threads[run.thread] == run.tenant &&
                           KeyOf(run) !in old(idemKeys) && run.id !in old(runs)
      ensures out.Err? ==> runs == old(runs) && idemKeys == old(idemKeys) && seqs == old(seqs)
      ensures out.Ok? ==> out.value == Last(old(seqs), run.thread) + 1
      ensures out.Ok? ==>
                History(runs, seqs, run.thread) ==
                  History(old(runs), old(seqs), run.thread) + [run.(number := out.value)]
      ensures out.Ok? ==> runs == old(runs)[run.id := run.(number := out.value)]
      ensures out.Ok? ==> idemKeys == old(idemKeys)[KeyOf(run) := run.id]
      ensures out.Ok? ==> seqs == old(seqs)[run.thread := out.value]
    {
      hide Dense, KeysOk, Owned, History;
      if run.thread !in threads || threads[run.thread] != run.tenant {
        return Err(Invalid("run_thread_unknown"));
      }
      var key := KeyOf(run);
      if key in idemKeys {
        return Err(Conflict("run_idempotency_key_taken"));
      }
      if run.id in runs {
        return Err(Conflict("run_exists"));
      }
      var number := Last(seqs, run.thread) + 1;
      var stored := run.(number := number);
      CreateKeepsDense(runs, seqs, stored);
      CreateKeepsKeys(runs, idemKeys, threads, stored);
      seqs := seqs[run.thread := number];
      idemKeys := idemKeys[key := run.id];
      runs := runs[run.id := stored];
      return Ok(number);
    }

    /** Replaces a run under its version; a copy that keeps its identity keeps the store valid. */
    method Update(run: Run, expected: int) returns (out: Outcome<int>)
      requires Valid()
      modifies `runs
      ensures run.id in old(runs) && SameIdentity(run, old(runs)[run.id]) ==> Valid()
      ensures out.Ok? <==>
                run.id in old(runs) && old(runs)[run.id].tenant == run.tenant && old(runs)[run.id].version == expected
      ensures out.Err? ==> runs == old(runs)
      ensures out.Ok? ==> out.value == expected + 1 && runs == old(runs)[run.id := run.(version := expected + 1)]
    {
      hide Dense, KeysOk, Owned;
      if run.id !in runs || runs[run.id].tenant != run.tenant {
        return Err(NotFound);
      }
      if runs[run.id].version != expected {
        return Err(Conflict("stale_version"));
      }
      var stored := run.(version := expected + 1);
      if SameIdentity(run, runs[run.id]) {
        UpdateKeeps(runs, seqs, idemKeys, threads, stored);
      }
      runs := runs[run.id := stored];
      return Ok(stored.version);
    }

    /** Finds the run created under a key, if any. */
    method GetByIdempotencyKey(tenant: string, thread: string, key: string) returns (out: Outcome<Run>)
      requires Valid()
      ensures out.Ok? ==>
                out.value.id in runs && runs[out.value.id] == out.value &&
                KeyOf(out.value) == IdemKey(tenant, thread, key)
      ensures out.Err? ==> forall id :: id in runs ==> KeyOf(runs[id]) != IdemKey(tenant, thread, key)
    {
      var k := IdemKey(tenant, thread, key);
      if k !in idemKeys {
        return Err(NotFound);
      }
      return Ok(runs[idemKeys[k]]);
    }

    /** One keyset page of a thread's history with the total taken in the same snapshot. */
    method ListByThread(tenant: string, thread: string, after: int, limit: int) returns (out: Outcome<(seq<Run>, int)>)
      requires Valid()
      ensures out.Ok? <==> thread in threads && threads[thread] == tenant
      ensures out.Ok? ==> out.value == (Page(History(runs, seqs, thread), after, limit), |History(runs, seqs, thread)|)
    {
      if thread !in threads || threads[thread] != tenant {
        return Err(NotFound);
      }
      var owned := Ordered(runs, seqs, tenant, thread);
      hide Dense, KeysOk, Owned, History;
      OwnersMatch(runs, seqs, threads, thread, tenant, owned);
      var page := TakePage(owned, after, limit);
      return Ok((page, |owned|));
    }
  }

  lemma CreateKeepsKeys(runs: Runs, keys: map<IdemKey, string>, threads: map<string, string>, r: Run)
    requires KeysOk(runs, keys) && Owned(runs, threads) && r.id !in runs && KeyOf(r) !in keys
    requires r.thread in threads && threads[r.thread] == r.tenant
    ensures KeysOk(runs[r.id := r], keys[KeyOf(r) := r.id]) && Owned(runs[r.id := r], threads)
  {
  }

  /** The runs of one thread and tenant sorted by number. */
  ghost predicate IsOrdered(runs: Runs, tenant: string, thread: string, owned: seq<Run>) {
    && (forall r :: r in owned ==> r.id in runs && runs[r.id] == r && r.thread == thread && r.tenant == tenant)
    && (forall id :: id in runs && runs[id].thread == thread && runs[id].tenant == tenant ==> runs[id] in owned)
    && (forall i, j :: 0 <= i < j < |owned| ==> owned[i].number < owned[j].number)
  }

  method Ordered(runs: Runs, ghost seqs: map<string, int>, tenant: string, thread: string) returns (owned: seq<Run>)
    requires Dense(runs, seqs)
    ensures IsOrdered(runs, tenant, thread, owned)
  {
    assert forall id :: id in runs ==> runs[id].id == id;
    hide Dense;
    var pairs: seq<(Key, Run)> := [];
    var rest := runs.Keys;
    while rest != {}
      invariant rest <= runs.Keys && Collected(runs, tenant, thread, rest, pairs)
      decreases |rest|
    {
      var id :| id in rest;
      CollectOne(runs, tenant, thread, rest, pairs, id);
      rest := rest - {id};
      if runs[id].thread == thread && runs[id].tenant == tenant {
        pairs := pairs + [(Key(runs[id].number, id), runs[id])];
      }
    }
    SortProps(pairs);
    var sorted := Sort(pairs);
    SameKeysDistinct(pairs, sorted);
    owned := seq(|sorted|, i requires 0 <= i < |sorted| => sorted[i].1);
    OrderedNumbers(runs, seqs, tenant, thread, pairs, sorted, owned);
  }

  /** The wanted runs outside rest, each once, with their sort keys. */
  ghost predicate Collected(runs: Runs, tenant: string, thread: string, rest: set<string>, pairs: seq<(Key, Run)>) {
    && (forall x :: x in pairs ==> x.1.id in runs && x.1.id !in rest && x == (Key(x.1.number, x.1.id), runs[x.1.id]))
    && (forall x :: x in pairs ==> x.1.thread == thread && x.1.tenant == tenant)
    && (forall id :: id in runs && id !in rest && runs[id].thread == thread && runs[id].tenant == tenant ==>
          (Key(runs[id].number, id), runs[id]) in pairs)
    && (forall i, j :: 0 <= i < j < |pairs| ==> pairs[i].0 != pairs[j].0)
  }

  lemma CollectOne(runs: Runs, tenant: string, thread: string, rest: set<string>, pairs: seq<(Key, Run)>, id: string)
    requires Collected(runs, tenant, thread, rest, pairs) && id in rest && id in runs && runs[id].id == id
    ensures Collected(runs, tenant, thread, rest - {id},
                      if runs[id].thread == thread && runs[id].tenant == tenant
                      then pairs + [(Key(runs[id].number, id), runs[id])] else pairs)
  {
    assert forall k :: 0 <= k < |pairs| ==> pairs[k] in pairs && pairs[k].1.id != id;
  }

  lemma OrderedNumbers(runs: Runs, seqs: map<string, int>, tenant: string, thread: string,
                       pairs: seq<(Key, Run)>, sorted: seq<(Key, Run)>, owned: seq<Run>)
    requires Dense(runs, seqs)
    requires forall x :: x in sorted <==> x in pairs
    requires Sorted(sorted) && forall i, j :: 0 <= i < j < |sorted| ==> sorted[i].0 != sorted[j].0
    requires forall x :: x in pairs ==> x.1.id in runs && x == (Key(x.1.number, x.1.id), runs[x.1.id])
    requires forall x :: x in pairs ==> x.1.thread == thread && x.1.tenant == tenant
    requires forall id :: id in runs && runs[id].thread == thread && runs[id].tenant == tenant ==>
               (Key(runs[id].number, id), runs[id]) in pairs
    requires |owned| == |sorted| && forall i :: 0 <= i < |owned| ==> owned[i] == sorted[i].1
    ensures IsOrdered(runs, tenant, thread, owned)
  {
    forall i | 0 <= i < |owned| ensures sorted[i] in pairs {
      assert sorted[i] in sorted;
    }
    forall i, j | 0 <= i < j < |owned| ensures owned[i].number < owned[j].number {
      assert sorted[i] in pairs && sorted[j] in pairs;
      LessTotal(sorted[i].0, sorted[j].0);
      assert owned[i].number != owned[j].number;
    }
    forall id | id in runs && runs[id].thread == thread && runs[id].tenant == tenant ensures runs[id] in owned {
      var x := (Key(runs[id].number, id), runs[id]);
      assert x in sorted;
      var i :| 0 <= i < |sorted| && sorted[i] == x;
      assert owned[i] == runs[id];
    }
  }

  /** Sorted by number, the runs of a thread are its history. */
  lemma OwnersMatch(runs: Runs, seqs: map<string, int>, threads: map<string, string>, thread: string, tenant: string,
                    owned: seq<Run>)
    requires Dense(runs, seqs) && Owned(runs, threads) && thread in threads && threads[thread] == tenant
    requires Last(seqs, thread) >= 0 && IsOrdered(runs, tenant, thread, owned)
    ensures owned == History(runs, seqs, thread)
  {
    var h := History(runs, seqs, thread);
    forall r | r in h ensures r in owned {
      var i :| 0 <= i < |h| && h[i] == r;
      assert h[i].id in runs;
    }
    forall r | r in owned ensures r in h {
      HistoryIsComplete(runs, seqs, thread, r.id);
    }
    SameNumbers(owned, h);
  }

  /** Two lists of the same runs in increasing number order are equal. */
  lemma {:induction false} SameNumbers(a: seq<Run>, b: seq<Run>)
    requires forall i, j :: 0 <= i < j < |a| ==> a[i].number < a[j].number
    requires forall i, j :: 0 <= i < j < |b| ==> b[i].number < b[j].number
    requires forall r :: r in a <==> r in b
    ensures a == b
    decreases |a|
  {
    assert |b| > 0 ==> b[0] in b;
    if a != [] {
      assert a[0] in b && b != [];
      var x, y := a[|a| - 1], b[|b| - 1];
      LastIsLargest(a, b);
      var c, d := a[..|a| - 1], b[..|b| - 1];
      assert a == c + [x] && b == d + [x];
      forall r ensures r in c <==> r in d {
        assert r in a <==> r in b;
        assert x !in c && x !in d;
      }
      SameNumbers(c, d);
    }
  }

  lemma LastIsLargest(a: seq<Run>, b: seq<Run>)
    requires |a| > 0 && |b| > 0
    requires forall i, j :: 0 <= i < j < |a| ==> a[i].number < a[j].number
    requires forall i, j :: 0 <= i < j < |b| ==> b[i].number < b[j].number
    requires forall r :: r in a <==> r in b
    ensures a[|a| - 1] == b[|b| - 1]
  {
    var x, y := a[|a| - 1], b[|b| - 1];
    assert x in b && y in a;
    var i :| 0 <= i < |b| && b[i] == x;
    var j :| 0 <= j < |a| && a[j] == y;
  }

  /** The loop that skips runs up to `after` and stops at the limit. */
  method TakePage(owned: seq<Run>, after: int, limit: int) returns (page: seq<Run>)
    requires forall i :: 0 <= i < |owned| ==> owned[i].number == i + 1
    ensures page == Page(owned, after, limit)
  {
    page := [];
    var from := if after <= 0 then 0 else if after >= |owned| then |owned| else after;
    var i := 0;
    while i < |owned|
      invariant 0 <= i <= |owned|
      invariant page == if i <= from then [] else owned[from..i]
      invariant limit > 0 ==> |page| <= limit
    {
      if limit > 0 && |page| >= limit {
        break;
      }
      if owned[i].number > after {
        page := page + [owned[i]];
      }
      i := i + 1;
    }
    assert i == |owned| ==> owned[from..i] == owned[from..];
  }
}
