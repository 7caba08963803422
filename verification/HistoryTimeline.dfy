/** Run histories over time: creations, updates and units of work that are rolled back. */
module HistoryTimeline {
  import opened RunHistory

  /** g has the runs of h, in place, and possibly more. Their bodies may have changed. */
  ghost predicate Extends(h: seq<Run>, g: seq<Run>) {
    |h| <= |g| && forall k :: 0 <= k < |h| ==> SameIdentity(h[k], g[k])
  }

  lemma ExtendsSelf(h: seq<Run>)
    ensures Extends(h, h)
  {
  }

  lemma ExtendsTransitive(h: seq<Run>, g: seq<Run>, f: seq<Run>)
    requires Extends(h, g) && Extends(g, f)
    ensures Extends(h, f)
  {
  }

  lemma ExtendsBack(h: seq<Run>, g: seq<Run>)
    requires Extends(h, g) && |g| <= |h|
    ensures Extends(g, h)
  {
  }

  /** Creating a run extends its thread's history by it and leaves the others alone. */
  lemma CreateExtendsHistories(runs: Runs, seqs: map<string, int>, r: Run, thread: string)
    requires Dense(runs, seqs) && r.id !in runs && r.number == Last(seqs, r.thread) + 1
    requires Last(seqs, r.thread) >= 0 && Last(seqs, thread) >= 0
    ensures Dense(runs[r.id := r], seqs[r.thread := r.number])
    ensures Extends(History(runs, seqs, thread), History(runs[r.id := r], seqs[r.thread := r.number], thread))
    ensures thread != r.thread ==>
              History(runs[r.id := r], seqs[r.thread := r.number], thread) == History(runs, seqs, thread)
  {
    CreateKeepsDense(runs, seqs, r);
    if thread != r.thread {
      var h, g := History(runs, seqs, thread), History(runs[r.id := r], seqs[r.thread := r.number], thread);
      forall i | 0 <= i < |h| ensures h[i] == g[i] {
        assert h[i].id in runs[r.id := r];
      }
    }
  }

  /** An update in place keeps every history's runs where they are. */
  lemma UpdateExtendsHistories(runs: Runs, seqs: map<string, int>, r: Run, thread: string)
    requires Dense(runs, seqs) && r.id in runs && SameIdentity(r, runs[r.id]) && Last(seqs, thread) >= 0
    ensures Dense(runs[r.id := r], seqs)
    ensures Extends(History(runs, seqs, thread), History(runs[r.id := r], seqs, thread))
  {
    UpdateKeepsDense(runs, seqs, r);
    var h, g := History(runs, seqs, thread), History(runs[r.id := r], seqs, thread);
    forall i | 0 <= i < |h| ensures SameIdentity(h[i], g[i]) {
      assert g[i].id in runs;
      assert runs[g[i].id].number == h[i].number;
    }
  }

  // ----- steps of the store

  datatype Store = Store(runs: Runs, seqs: map<string, int>)

  ghost predicate StoreOk(s: Store) {
    Dense(s.runs, s.seqs) && forall t :: t in s.seqs ==> s.seqs[t] >= 0
  }

  ghost function HistoryOf(s: Store, thread: string): (h: seq<Run>)
    requires StoreOk(s)
    ensures |h| == Last(s.seqs, thread)
  {
    History(s.runs, s.seqs, thread)
  }

  /** One Create, one Update of a copy that keeps its identity, or nothing. */
  ghost predicate StoreStep(a: Store, b: Store) {
    || a == b
    || (exists r: Run :: Creates(a, b, r))
    || (exists r: Run :: Updates(a, b, r))
  }

  ghost predicate Creates(a: Store, b: Store, r: Run) {
    && r.id !in a.runs && r.number == Last(a.seqs, r.thread) + 1
    && b == Store(a.runs[r.id := r], a.seqs[r.thread := r.number])
  }

  ghost predicate Updates(a: Store, b: Store, r: Run) {
    r.id in a.runs && SameIdentity(r, a.runs[r.id]) && b == Store(a.runs[r.id := r], a.seqs)
  }

  lemma StepExtends(a: Store, b: Store, thread: string)
    requires StoreOk(a) && StoreStep(a, b)
    ensures StoreOk(b) && Extends(HistoryOf(a, thread), HistoryOf(b, thread))
  {
    hide Dense, History;
    if r :| Creates(a, b, r) {
      CreateExtendsHistories(a.runs, a.seqs, r, thread);
    } else if a != b {
      var r: Run :| Updates(a, b, r);
      UpdateExtendsHistories(a.runs, a.seqs, r, thread);
    }
  }

  // ----- timelines

  /** The store at every moment. back(k) says that the step after moment k puts back what was
      stored at an earlier moment: a unit that began there is rolled back. Units exclude each
      other, so one begins after the one before is over. */
  ghost predicate Timeline(store: nat -> Store, back: nat -> Moment) {
    && StoreOk(store(0))
    && (forall k: nat :: back(k).Forward? ==> StoreStep(store(k), After(store, k)))
    && (forall k: nat :: back(k).Rollback? ==> back(k).to <= k && After(store, k) == store(back(k).to))
    && (forall k: nat, l: nat :: k < l && back(k).Rollback? && back(l).Rollback? ==> k < back(l).to)
  }

  ghost function After(store: nat -> Store, k: nat): (s: Store) {
    store(k + 1)
  }

  datatype Moment = Forward | Rollback(to: nat)

  /** Created runs get ids no run ever had. */
  ghost predicate FreshIds(store: nat -> Store, back: nat -> Moment) {
    forall m: nat, k: nat, r: Run ::
      m <= k && back(k).Forward? && Creates(store(k), After(store, k), r) ==> r.id !in store(m).runs
  }

  /** How the store gets to moment k + 1. */
  lemma OneStep(store: nat -> Store, back: nat -> Moment, k: nat)
    requires Timeline(store, back)
    ensures match back(k)
            case Forward => StoreStep(store(k), store(k + 1))
            case Rollback(b) => b <= k && store(k + 1) == store(b)
  {
    assert After(store, k) == store(k + 1);
  }

  lemma OneAfterTheOther(store: nat -> Store, back: nat -> Moment, k: nat, l: nat)
    requires Timeline(store, back) && k < l && back(k).Rollback? && back(l).Rollback?
    ensures k < back(l).to
  {
  }

  lemma {:induction false} AlwaysOk(store: nat -> Store, back: nat -> Moment, t: nat)
    requires Timeline(store, back)
    ensures StoreOk(store(t))
    decreases t
  {
    if t > 0 {
      hide Timeline;
      var k: nat := t - 1;
      OneStep(store, back, k);
      match back(k) {
        case Forward =>
          AlwaysOk(store, back, k);
          hide StoreOk;
          StepExtends(store(k), store(t), "");
        case Rollback(b) =>
          AlwaysOk(store, back, b);
      }
    }
  }

  /** Up to moment t2 nothing that was visible at t1 in this thread is rolled back. */
  ghost predicate Lasting(store: nat -> Store, back: nat -> Moment, thread: string, t1: nat, t2: nat) {
    forall k: nat :: k < t2 && back(k).Rollback? && back(k).to < t1 <= k ==>
      Last(store(t1).seqs, thread) <= Last(store(back(k).to).seqs, thread)
  }

  /** The beginning of a unit is not rolled back within it. */
  lemma BeginningLasts(store: nat -> Store, back: nat -> Moment, thread: string, k: nat, t: nat)
    requires Timeline(store, back) && back(k).Rollback? && back(k).to <= t <= k
    ensures Lasting(store, back, thread, back(k).to, t)
  {
    hide Timeline;
    forall l: nat | l < t && back(l).Rollback? ensures l < back(k).to {
      OneAfterTheOther(store, back, l, k);
    }
  }

  /** What lasts is extended by every later history. */
  lemma {:induction false} LastingExtends(store: nat -> Store, back: nat -> Moment, thread: string, t1: nat, t2: nat)
    requires Timeline(store, back) && t1 <= t2 && Lasting(store, back, thread, t1, t2)
    ensures StoreOk(store(t1)) && StoreOk(store(t2))
    ensures Extends(HistoryOf(store(t1), thread), HistoryOf(store(t2), thread))
    decreases t2
  {
    hide Timeline, StoreOk, StoreStep, Extends, HistoryOf;
    AlwaysOk(store, back, t1);
    AlwaysOk(store, back, t2);
    ExtendsSelf(HistoryOf(store(t1), thread));
    if t1 < t2 {
      var k: nat := t2 - 1;
      OneStep(store, back, k);
      match back(k) {
        case Forward =>
          LastingExtends(store, back, thread, t1, k);
          StepExtends(store(k), store(t2), thread);
          ExtendsTransitive(HistoryOf(store(t1), thread), HistoryOf(store(k), thread), HistoryOf(store(t2), thread));
        case Rollback(b) =>
          if t1 <= b {
            LastingExtends(store, back, thread, t1, b);
          } else {
            BeginningLasts(store, back, thread, k, t1);
            LastingExtends(store, back, thread, b, t1);
            ExtendsBack(HistoryOf(store(b), thread), HistoryOf(store(t1), thread));
          }
      }
    }
  }

  // ----- fetches

  ghost predicate WellNumbered(h: seq<Run>) {
    && (forall k :: 0 <= k < |h| ==> h[k].number == k + 1)
    && (forall i, j :: 0 <= i < j < |h| ==> h[i].id != h[j].id)
  }

  /** server(i) is the history at the i-th fetch: numbered from one, and only growing. */
  ghost predicate Serves(server: nat -> seq<Run>) {
    && (forall i :: WellNumbered(server(i)))
    && (forall i, j :: i <= j ==> Extends(server(i), server(j)))
  }

  /** server(i) is what a fetch at moment times(i) reads, be it inside a unit or not. */
  ghost predicate Fetches(store: nat -> Store, times: nat -> nat, thread: string, server: nat -> seq<Run>) {
    && (forall i: nat, j: nat :: i <= j ==> times(i) <= times(j))
    && (forall i: nat :: StoreOk(store(times(i))) ==> server(i) == HistoryOf(store(times(i)), thread))
  }

  /** No fetch that saw a run of a unit which is then rolled back is followed by another fetch. */
  ghost predicate NoDirtyFetch(store: nat -> Store, back: nat -> Moment, times: nat -> nat, thread: string) {
    forall i: nat, j: nat, k: nat ::
      back(k).Rollback? && back(k).to < times(i) <= k < times(j) ==>
        Last(store(times(i)).seqs, thread) <= Last(store(back(k).to).seqs, thread)
  }

  lemma HistoryWellNumbered(s: Store, thread: string)
    requires StoreOk(s)
    ensures WellNumbered(HistoryOf(s, thread))
  {
    HistoryIsComplete(s.runs, s.seqs, thread, "");
  }

  lemma CleanFetchesServe(store: nat -> Store, back: nat -> Moment, times: nat -> nat, thread: string,
                          server: nat -> seq<Run>)
    requires Timeline(store, back) && Fetches(store, times, thread, server)
    requires NoDirtyFetch(store, back, times, thread)
    ensures Serves(server)
  {
    hide StoreOk, StoreStep, Extends, HistoryOf, WellNumbered, Timeline;
    forall i: nat, j: nat | i <= j ensures Extends(server(i), server(j)) {
      LastingExtends(store, back, thread, times(i), times(j));
    }
    forall i: nat ensures WellNumbered(server(i)) {
      AlwaysOk(store, back, times(i));
      HistoryWellNumbered(store(times(i)), thread);
    }
  }

  // ----- a dirty fetch is not served

  /** A run numbered beyond what was stored when its unit began is not in the store then. */
  lemma CreatedInUnit(store: nat -> Store, back: nat -> Moment, thread: string, k: nat, t: nat, id: string)
    requires Timeline(store, back) && back(k).Rollback? && back(k).to < t <= k
    requires id in store(t).runs && store(t).runs[id].thread == thread
    requires store(t).runs[id].number > Last(store(back(k).to).seqs, thread)
    ensures id !in store(back(k).to).runs
  {
    var b := back(k).to;
    AlwaysOk(store, back, b);
    AlwaysOk(store, back, t);
    if id in store(b).runs {
      var x := store(b).runs[id];
      BeginningLasts(store, back, x.thread, k, t);
      LastingExtends(store, back, x.thread, b, t);
      hide Timeline;
      SameRunLater(store(b), store(t), id);
    }
  }

  lemma SameRunLater(a: Store, b: Store, id: string)
    requires StoreOk(a) && StoreOk(b) && id in a.runs
    requires Extends(HistoryOf(a, a.runs[id].thread), HistoryOf(b, a.runs[id].thread))
    ensures id in b.runs && SameIdentity(a.runs[id], b.runs[id]) && b.runs[id].number <= Last(a.seqs, b.runs[id].thread)
  {
    var x := a.runs[id];
    HistoryIsComplete(a.runs, a.seqs, x.thread, id);
    assert HistoryOf(a, x.thread)[x.number - 1] == x;
  }

  lemma NotRecreated(store: nat -> Store, back: nat -> Moment, seen: nat, p: nat, id: string)
    requires FreshIds(store, back) && back(p).Forward? && StoreStep(store(p), store(p + 1))
    requires seen <= p && id in store(seen).runs && id !in store(p).runs
    ensures id !in store(p + 1).runs
  {
    var a, b := store(p), After(store, p);
    if r :| Creates(a, b, r) {
      assert r.id !in store(seen).runs;
    }
  }

  /** Once its unit is rolled back such a run never comes back. */
  lemma {:induction false} StaysGone(store: nat -> Store, back: nat -> Moment, k: nat, seen: nat, t: nat, id: string)
    requires Timeline(store, back) && FreshIds(store, back) && back(k).Rollback?
    requires seen <= k < t && id in store(seen).runs && id !in store(back(k).to).runs
    ensures id !in store(t).runs
    decreases t
  {
    hide Timeline, FreshIds;
    var p: nat := t - 1;
    OneStep(store, back, p);
    if p != k {
      match back(p) {
        case Forward =>
          StaysGone(store, back, k, seen, p, id);
          NotRecreated(store, back, seen, p, id);
        case Rollback(b) =>
          OneAfterTheOther(store, back, k, p);
          StaysGone(store, back, k, seen, b, id);
      }
    }
  }

  lemma DirtyFetchesBreak(store: nat -> Store, back: nat -> Moment, times: nat -> nat, thread: string,
                          server: nat -> seq<Run>, i: nat, j: nat, k: nat)
    requires Timeline(store, back) && FreshIds(store, back) && Fetches(store, times, thread, server)
    requires back(k).Rollback? && back(k).to < times(i) <= k < times(j)
    requires Last(store(times(i)).seqs, thread) > Last(store(back(k).to).seqs, thread)
    ensures i <= j && !Extends(server(i), server(j))
  {
    hide StoreStep, FreshIds;
    var b, t, u := back(k).to, times(i), times(j);
    AlwaysOk(store, back, b);
    AlwaysOk(store, back, t);
    AlwaysOk(store, back, u);
    var p := Last(store(b).seqs, thread);
    HistoryWellNumbered(store(b), thread);
    var x := HistoryOf(store(t), thread)[p];
    CreatedInUnit(store, back, thread, k, t, x.id);
    StaysGone(store, back, k, t, u, x.id);
    if |server(j)| > p {
      assert server(j)[p].id in store(u).runs;
    }
  }

  /** Every fetch sees a history the later ones extend exactly when no dirty fetch is followed
      by another one. */
  lemma ServesIff(store: nat -> Store, back: nat -> Moment, times: nat -> nat, thread: string,
                  server: nat -> seq<Run>)
    requires Timeline(store, back) && FreshIds(store, back) && Fetches(store, times, thread, server)
    ensures Serves(server) <==> NoDirtyFetch(store, back, times, thread)
  {
    hide Timeline, FreshIds, Fetches;
    if NoDirtyFetch(store, back, times, thread) {
      CleanFetchesServe(store, back, times, thread, server);
    } else {
      var i: nat, j: nat, k: nat :|
        back(k).Rollback? && back(k).to < times(i) <= k < times(j) &&
        Last(store(times(i)).seqs, thread) > Last(store(back(k).to).seqs, thread);
      DirtyFetchesBreak(store, back, times, thread, server, i, j, k);
    }
  }

  /** In particular when no fetch falls inside a unit that is rolled back. */
  lemma StoreServes(store: nat -> Store, back: nat -> Moment, times: nat -> nat, thread: string,
                    server: nat -> seq<Run>)
    requires Timeline(store, back) && Fetches(store, times, thread, server)
    requires forall i: nat, k: nat :: back(k).Rollback? ==> !(back(k).to < times(i) <= k)
    ensures Serves(server)
  {
    CleanFetchesServe(store, back, times, thread, server);
  }
}
