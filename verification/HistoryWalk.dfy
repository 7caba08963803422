/** The client's walk over history pages while runs are being created. */
module HistoryWalk {
  import opened RunHistory
  import opened HistoryTimeline

  const MAX_SAFE_INTEGER := 9007199254740991

  datatype Code = NoProgress | DuplicateRun | HistoryShrank | UnboundedTraversal

  datatype Walk = Collected(runs: seq<Run>, total: int, fetches: int) | Refused(code: Code, fetches: int)

  /** How many of the first n fetches reported a larger total than all before. */
  ghost function Growth(server: nat -> seq<Run>, n: nat): (g: nat) {
    if n == 0 then 0
    else Growth(server, n - 1) + if |server(n - 1)| > (if n == 1 then 0 else |server(n - 2)|) then 1 else 0
  }

  /** Every listed run is the run at its place in h, as it was at one of the first n fetches. */
  ghost predicate Mirrors(server: nat -> seq<Run>, runs: seq<Run>, h: seq<Run>, n: nat) {
    && |runs| <= |h|
    && (forall k :: 0 <= k < |runs| ==> SameIdentity(runs[k], h[k]))
    && (forall k :: 0 <= k < |runs| ==> WasFetched(server, runs[k], k, n))
  }

  ghost predicate WasFetched(server: nat -> seq<Run>, r: Run, k: nat, n: nat) {
    exists i :: 0 <= i < n && k < |server(i)| && server(i)[k] == r
  }

  lemma MirrorsLater(server: nat -> seq<Run>, runs: seq<Run>, n: nat)
    requires Serves(server) && n > 0 && Mirrors(server, runs, server(n - 1), n)
    ensures Mirrors(server, runs, server(n), n + 1)
  {
    assert Extends(server(n - 1), server(n));
    forall k | 0 <= k < |runs| ensures WasFetched(server, runs[k], k, n + 1) {
      assert WasFetched(server, runs[k], k, n);
    }
  }

  lemma MirrorsMore(server: nat -> seq<Run>, runs: seq<Run>, page: seq<Run>, n: nat)
    requires Mirrors(server, runs, server(n), n + 1) && |runs| + |page| <= |server(n)|
    requires page == server(n)[|runs|..|runs| + |page|]
    ensures Mirrors(server, runs + page, server(n), n + 1)
  {
    var all := runs + page;
    forall k | 0 <= k < |all| ensures SameIdentity(all[k], server(n)[k]) && WasFetched(server, all[k], k, n + 1) {
      if k < |runs| {
        assert WasFetched(server, runs[k], k, n + 1);
      } else {
        assert all[k] == server(n)[k];
      }
    }
  }

  /** A page above the last consumed run is the next stretch of the history. */
  lemma PageIsNext(h: seq<Run>, c: nat, limit: int)
    requires c <= |h| && limit > 0
    ensures |Page(h, c, limit)| == if limit < |h| - c then limit else |h| - c
    ensures Page(h, c, limit) == h[c..c + |Page(h, c, limit)|]
  {
    assert c > 0 && c < |h| ==> h[c..][..|h| - c] == h[c..];
  }

  // ----- what the walk computes

  function IdsOf(runs: seq<Run>): (ids: set<string>) {
    set r | r in runs :: r.id
  }

  /** Some run of the page has the id of a run before it. */
  ghost predicate Repeats(runs: seq<Run>, page: seq<Run>) {
    exists i :: 0 <= i < |page| && page[i].id in IdsOf(runs + page[..i])
  }

  function Cursor(runs: seq<Run>): (after: int) {
    if runs == [] then 0 else runs[|runs| - 1].number
  }

  /** The outcome of a walk that has fetched n pages, over any server whatsoever. */
  ghost function Traversal(server: nat -> seq<Run>, limit: int, maxPages: int, maxGrowthSteps: int,
                           n: nat, runs: seq<Run>, total: int, growthSteps: int): (out: Walk)
    decreases maxPages - n
  {
    if n >= maxPages then Refused(UnboundedTraversal, n)
    else
      var h := server(n);
      var page := Page(h, Cursor(runs), limit);
      var all := runs + page;
      var growth := if |h| > total then growthSteps + 1 else growthSteps;
      var expected := if |h| > total then |h| else total;
      if |h| > MAX_SAFE_INTEGER || |h| < |all| then Refused(HistoryShrank, n + 1)
      else if |h| > total && growth > maxGrowthSteps then Refused(UnboundedTraversal, n + 1)
      else if Repeats(runs, page) then Refused(DuplicateRun, n + 1)
      else if page == [] && |all| < expected then Refused(NoProgress, n + 1)
      else if |all| >= expected then Collected(all, expected, n + 1)
      else Traversal(server, limit, maxPages, maxGrowthSteps, n + 1, all, expected, growth)
  }

  /** Walks the pages until the reported total is consumed. Whatever the server answers, a collected
      history has no run twice and as many as promised. Over histories that only grow the walk
      never reports a duplicate, a stall or a lost run; it returns every run that existed at its
      last fetch, once and in order; and it gives up only beyond its caps. */
  method CollectRunHistory(server: nat -> seq<Run>, limit: int, maxPages: int, maxGrowthSteps: int) returns (out: Walk)
    ensures out == Traversal(server, limit, maxPages, maxGrowthSteps, 0, [], 0, 0)
    ensures Serves(server) && limit > 0 ==> WalkOk(server, limit, maxPages, maxGrowthSteps, out)
    ensures Sound(server, maxPages, 0, out)
  {
    hide WalkOk, Sound, Serves, Page;
    CollectedIsSound(server, limit, maxPages, maxGrowthSteps, 0, [], 0, 0);
    if Serves(server) && limit > 0 {
      WalkServes(server, limit, maxPages, maxGrowthSteps, 0, [], 0);
    }
    var runs: seq<Run> := [];
    var seen: set<string> := {};
    var total, growthSteps, page := 0, 0, 1;
    while true
      invariant page >= 1 && seen == IdsOf(runs)
      invariant Traversal(server, limit, maxPages, maxGrowthSteps, page - 1, runs, total, growthSteps) ==
                Traversal(server, limit, maxPages, maxGrowthSteps, 0, [], 0, 0)
      decreases maxPages - page
    {
      if page > maxPages {
        return Refused(UnboundedTraversal, page - 1);
      }
      var h := server(page - 1);
      var result := Page(h, if runs == [] then 0 else runs[|runs| - 1].number, limit);
      var consumed := |runs| + |result|;
      if |h| > MAX_SAFE_INTEGER || |h| < consumed {
        return Refused(HistoryShrank, page);
      }
      if |h| > total {
        growthSteps := growthSteps + 1;
        if growthSteps > maxGrowthSteps {
          return Refused(UnboundedTraversal, page);
        }
        total := |h|;
      }
      var ok;
      ok, runs, seen := Consume(runs, seen, result);
      if !ok {
        return Refused(DuplicateRun, page);
      }
      if result == [] && |runs| < total {
        return Refused(NoProgress, page);
      }
      if |runs| >= total {
        return Collected(runs, total, page);
      }
      page := page + 1;
    }
  }

  /** Appends a page run by run, stopping at a repeated id. */
  method Consume(runs: seq<Run>, seen: set<string>, page: seq<Run>) returns (ok: bool, all: seq<Run>, ids: set<string>)
    requires seen == IdsOf(runs)
    ensures ok <==> !Repeats(runs, page)
    ensures ok ==> all == runs + page && ids == IdsOf(all)
  {
    all, ids := runs, seen;
    var i := 0;
    while i < |page|
      invariant 0 <= i <= |page| && all == runs + page[..i] && ids == IdsOf(all)
      invariant forall k :: 0 <= k < i ==> page[k].id !in IdsOf(runs + page[..k])
    {
      if page[i].id in ids {
        return false, all, ids;
      }
      OneMoreId(all, page[i]);
      ids := ids + {page[i].id};
      all := all + [page[i]];
      assert page[..i + 1] == page[..i] + [page[i]];
      i := i + 1;
    }
    return true, all, ids;
  }

  lemma OneMoreId(runs: seq<Run>, r: Run)
    ensures IdsOf(runs + [r]) == IdsOf(runs) + {r.id}
  {
    assert forall x :: x in runs + [r] <==> x in runs || x == r;
  }

  // ----- over histories that only grow

  /** What a walk promises its caller. */
  ghost predicate WalkOk(server: nat -> seq<Run>, limit: int, maxPages: int, maxGrowthSteps: int, out: Walk) {
    && out.fetches >= 0
    && (out.Collected? ==>
          && out.fetches >= 1 && |out.runs| == out.total == |server(out.fetches - 1)|
          && Mirrors(server, out.runs, server(out.fetches - 1), out.fetches)
          && (out.total == 0 || Growth(server, out.fetches) <= maxGrowthSteps) && out.fetches <= maxPages)
    && (out.Refused? ==> out.code == HistoryShrank || out.code == UnboundedTraversal)
    && (out.Refused? && out.code == HistoryShrank ==>
          out.fetches >= 1 && |server(out.fetches - 1)| > 9_007_199_254_740_991)
    && (out.Refused? && out.code == UnboundedTraversal ==>
          || Growth(server, out.fetches) > maxGrowthSteps
          || maxPages <= 0
          || (out.fetches == maxPages && limit * maxPages < |server(maxPages - 1)|))
  }

  /** The walk before its fetch number n: full pages so far, and runs outstanding. */
  ghost predicate Walking(server: nat -> seq<Run>, limit: int, runs: seq<Run>, total: int, n: nat) {
    && (n == 0 ==> runs == [] && total == 0)
    && (n > 0 ==>
          && total == |server(n - 1)| && |runs| < total && |runs| == limit * n
          && Mirrors(server, runs, server(n - 1), n))
  }

  /** The next page holds no run seen before. */
  lemma NothingTwice(runs: seq<Run>, h: seq<Run>, page: seq<Run>)
    requires WellNumbered(h) && |runs| + |page| <= |h| && page == h[|runs|..|runs| + |page|]
    requires forall k :: 0 <= k < |runs| ==> SameIdentity(runs[k], h[k])
    ensures !Repeats(runs, page)
  {
    forall i | 0 <= i < |page| ensures page[i].id !in IdsOf(runs + page[..i]) {
      var before := runs + page[..i];
      assert page[i] == h[|runs| + i];
      forall k | 0 <= k < |before| ensures before[k].id != page[i].id {
        assert before[k].id == h[k].id;
      }
    }
  }

  /** What the next fetch brings. */
  lemma NextFetch(server: nat -> seq<Run>, limit: int, runs: seq<Run>, total: int, n: nat)
    requires Serves(server) && limit > 0 && Walking(server, limit, runs, total, n)
    ensures total <= |server(n)| && |runs| <= |server(n)| && Cursor(runs) == |runs| == limit * n
    ensures var page := Page(server(n), |runs|, limit);
            && |page| == (if limit < |server(n)| - |runs| then limit else |server(n)| - |runs|)
            && !Repeats(runs, page) && Mirrors(server, runs + page, server(n), n + 1)
  {
    hide Mirrors, Page, Repeats;
    assert WellNumbered(server(n));
    if n > 0 {
      assert Extends(server(n - 1), server(n));
      MirrorsLater(server, runs, n);
    } else {
      NothingMirrored(server, n);
    }
    MirrorsIdentity(server, runs, server(n), n + 1);
    PageIsNext(server(n), |runs|, limit);
    NothingTwice(runs, server(n), Page(server(n), |runs|, limit));
    MirrorsMore(server, runs, Page(server(n), |runs|, limit), n);
  }

  lemma NothingMirrored(server: nat -> seq<Run>, n: nat)
    ensures Mirrors(server, [], server(n), n + 1)
  {
  }

  lemma MirrorsIdentity(server: nat -> seq<Run>, runs: seq<Run>, h: seq<Run>, n: nat)
    requires Mirrors(server, runs, h, n)
    ensures |runs| <= |h| && forall k :: 0 <= k < |runs| ==> SameIdentity(runs[k], h[k])
  {
  }

  lemma {:induction false} WalkServes(server: nat -> seq<Run>, limit: int, maxPages: int, maxGrowthSteps: int,
                                      n: nat, runs: seq<Run>, total: int)
    requires Serves(server) && limit > 0 && Walking(server, limit, runs, total, n)
    requires n == 0 || (n <= maxPages && Growth(server, n) <= maxGrowthSteps)
    ensures WalkOk(server, limit, maxPages, maxGrowthSteps,
                   Traversal(server, limit, maxPages, maxGrowthSteps, n, runs, total, Growth(server, n)))
    decreases maxPages - n
  {
    hide Mirrors, Serves, Page, Repeats;
    if n < maxPages {
      NextFetch(server, limit, runs, total, n);
      var h := server(n);
      var all := runs + Page(h, Cursor(runs), limit);
      var grew := |h| > total;
      if |h| <= MAX_SAFE_INTEGER && !(grew && Growth(server, n + 1) > maxGrowthSteps) && |all| < |h| {
        assert limit * (n + 1) == limit * n + limit;
        WalkServes(server, limit, maxPages, maxGrowthSteps, n + 1, all, |h|);
      }
    }
  }

  // ----- whatever the server does

  ghost predicate DistinctIds(runs: seq<Run>) {
    forall i, j :: 0 <= i < j < |runs| ==> runs[i].id != runs[j].id
  }

  lemma {:induction false} NoRepeats(runs: seq<Run>, page: seq<Run>, n: nat)
    requires DistinctIds(runs) && !Repeats(runs, page) && n <= |page|
    ensures DistinctIds(runs + page[..n])
    decreases n
  {
    if n == 0 {
      assert runs + page[..0] == runs;
    } else {
      NoRepeats(runs, page, n - 1);
      var before, all := runs + page[..n - 1], runs + page[..n];
      assert all == before + [page[n - 1]];
      assert page[n - 1].id !in IdsOf(before);
      forall i, j | 0 <= i < j < |all| ensures all[i].id != all[j].id {
        if j == |before| {
          assert all[i] in before;
        }
      }
    }
  }

  /** What holds of every outcome after n pages. */
  ghost predicate Sound(server: nat -> seq<Run>, maxPages: int, n: nat, out: Walk) {
    && (out.Collected? ==>
          && DistinctIds(out.runs) && n < out.fetches <= maxPages
          && |out.runs| == out.total == |server(out.fetches - 1)| <= 9_007_199_254_740_991)
    && (n <= maxPages ==> n <= out.fetches <= maxPages)
  }

  /** For every server, honest or not, and every limit: a collected history has no run twice and exactly as
      many runs as the last answer promised, which is within the safe integers, and the walk ends
      within its pages. */
  lemma {:induction false} CollectedIsSound(server: nat -> seq<Run>, limit: int, maxPages: int, maxGrowthSteps: int,
                                            n: nat, runs: seq<Run>, total: int, growthSteps: int)
    requires DistinctIds(runs)
    ensures Sound(server, maxPages, n,
                  Traversal(server, limit, maxPages, maxGrowthSteps, n, runs, total, growthSteps))
    decreases maxPages - n
  {
    hide Page, Cursor, Repeats, DistinctIds;
    if n < maxPages {
      var page := Page(server(n), Cursor(runs), limit);
      if !Repeats(runs, page) {
        NoRepeats(runs, page, |page|);
        assert page[..|page|] == page;
        var growth := if |server(n)| > total then growthSteps + 1 else growthSteps;
        var expected := if |server(n)| > total then |server(n)| else total;
        CollectedIsSound(server, limit, maxPages, maxGrowthSteps, n + 1, runs + page, expected, growth);
      }
    }
  }

  // ----- over a unit that is rolled back

  /** The input that stalls the walk: a first fetch inside a unit that has created a run, a second
      one after its rollback, and exactly one page of runs that stay. */
  lemma UncommittedRunStalls(server: nat -> seq<Run>, limit: int, maxPages: int, maxGrowthSteps: int,
                             h: seq<Run>, x: Run)
    requires WellNumbered(h + [x]) && |h| == limit >= 1 && limit < MAX_SAFE_INTEGER
    requires server(0) == h + [x] && server(1) == h && maxPages >= 2 && maxGrowthSteps >= 1
    ensures Traversal(server, limit, maxPages, maxGrowthSteps, 0, [], 0, 0) == Refused(NoProgress, 2)
  {
    var g := h + [x];
    PageIsNext(g, 0, limit);
    PageIsNext(h, limit, limit);
    assert g[0..limit] == h && h[limit..limit] == [];
    assert [] + h == h && h + [] == h;
    NothingTwice([], g, h);
    assert Cursor(h) == limit by { assert h[limit - 1] == g[limit - 1]; }
    assert !Repeats(h, []);
    hide Repeats, Page;
    assert Traversal(server, limit, maxPages, maxGrowthSteps, 1, h, limit + 1, 1) == Refused(NoProgress, 2);
  }

  /** A last fetch inside a unit returns the run the unit created, committed or not. */
  lemma UncommittedRunIsReturned(server: nat -> seq<Run>, limit: int, maxPages: int, maxGrowthSteps: int,
                                 h: seq<Run>, x: Run)
    requires WellNumbered(h + [x]) && |h| < limit && |h| < MAX_SAFE_INTEGER
    requires server(0) == h + [x] && maxPages >= 1 && maxGrowthSteps >= 1
    ensures Traversal(server, limit, maxPages, maxGrowthSteps, 0, [], 0, 0) == Collected(h + [x], |h| + 1, 1)
  {
    var g := h + [x];
    PageIsNext(g, 0, limit);
    assert g[0..|g|] == g && [] + g == g;
    NothingTwice([], g, g);
  }

  /** Every store whose thread has exactly one page of runs has such a timeline: a unit creates a
      run, is read, and is rolled back. */
  lemma RolledBackStartStalls(s: Store, thread: string, r: Run, maxPages: int, maxGrowthSteps: int)
    returns (store: nat -> Store, back: nat -> Moment, times: nat -> nat, server: nat -> seq<Run>)
    requires StoreOk(s) && r.thread == thread && r.id !in s.runs && r.number == Last(s.seqs, thread) + 1
    requires 1 <= Last(s.seqs, thread) < MAX_SAFE_INTEGER && maxPages >= 2 && maxGrowthSteps >= 1
    ensures Timeline(store, back) && Fetches(store, times, thread, server)
    ensures Traversal(server, Last(s.seqs, thread), maxPages, maxGrowthSteps, 0, [], 0, 0) == Refused(NoProgress, 2)
  {
    hide StoreOk, HistoryOf, Traversal, Timeline, Fetches, WellNumbered;
    var u := Store(s.runs[r.id := r], s.seqs[r.thread := r.number]);
    OneMoreRun(s, u, thread, r);
    var h, g := HistoryOf(s, thread), HistoryOf(u, thread);
    store := (n: nat) => if n == 1 then u else s;
    back := (n: nat) => if n == 1 then Rollback(0) else Forward;
    times := (i: nat) => if i == 0 then 1 else 2;
    server := (i: nat) => if i == 0 then g else h;
    OneRollback(s, u, r, store, back);
    TwoFetches(s, u, thread, store, times, server);
    UncommittedRunStalls(server, Last(s.seqs, thread), maxPages, maxGrowthSteps, h, r);
  }

  lemma OneMoreRun(s: Store, u: Store, thread: string, r: Run)
    requires StoreOk(s) && r.thread == thread && Creates(s, u, r)
    ensures StoreOk(u) && HistoryOf(u, thread) == HistoryOf(s, thread) + [r] && WellNumbered(HistoryOf(u, thread))
  {
    StepExtends(s, u, thread);
    CreateExtends(s.runs, s.seqs, r);
    HistoryWellNumbered(u, thread);
  }

  lemma OneRollback(s: Store, u: Store, r: Run, store: nat -> Store, back: nat -> Moment)
    requires StoreOk(s) && Creates(s, u, r)
    requires forall n: nat :: store(n) == if n == 1 then u else s
    requires forall n: nat :: back(n) == if n == 1 then Rollback(0) else Forward
    ensures Timeline(store, back)
  {
    hide StoreOk, Creates;
  }

  lemma TwoFetches(s: Store, u: Store, thread: string, store: nat -> Store, times: nat -> nat, server: nat -> seq<Run>)
    requires StoreOk(s) && StoreOk(u)
    requires forall n: nat :: store(n) == if n == 1 then u else s
    requires forall i: nat :: times(i) == if i == 0 then 1 else 2
    requires forall i: nat :: server(i) == if i == 0 then HistoryOf(u, thread) else HistoryOf(s, thread)
    ensures Fetches(store, times, thread, server)
  {
    hide StoreOk, HistoryOf;
  }
}
