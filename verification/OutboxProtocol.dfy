/** Any number of dispatchers, publishers, operators and sweeps over one outbox. An enqueue is
    committed when it is published: no unit that holds one is rolled back after a lease. */
module OutboxProtocol {
  import opened OutboxRow
  import opened OutboxTable

  /** What a dispatcher copies out of a row it leased. */
  datatype Snapshot = Snapshot(id: string, attempts: int, maxAttempts: int)

  datatype Reply = Waiting | Accepted | Rejected

  /** A dispatcher works through its batch: it offers a message to the sink, then settles it. */
  datatype Worker = Idle | Working(batch: seq<Snapshot>, at: nat, reply: Reply)

  datatype State = State(
    rows: Rows, accepted: set<string>, enqueued: nat, swept: nat, workers: map<string, Worker>)

  datatype Action =
    | Publish(row: Row)
    | Lease(worker: string, ids: seq<string>, now: int, until: int)
    | Offer(worker: string, ok: bool)
    | Settle(worker: string, now: int, retryIn: int, cause: string)
    | Stop(worker: string)
    | Operate(id: string, event: Event)
    | Sweep(now: int, req: SweepRequest)

  function SnapshotOf(r: Row): (s: Snapshot) {
    Snapshot(r.id, r.attempts, r.maxAttempts)
  }

  function WorkerOf(s: State, w: string): (k: Worker) {
    if w in s.workers then s.workers[w] else Idle
  }

  /** A fresh row as Publish and Append make it, under an id no stored row has. */
  ghost predicate Fresh(t: Rows, r: Row) {
    && r == NewRow(r.id, r.dedup, r.tenant, r.envelope, r.maxAttempts, r.createdAt) && 1 <= r.maxAttempts <= 100
    && (r.id !in t || DedupKnown(t, r.dedup))
  }

  ghost predicate CanLease(t: Rows, ids: seq<string>, now: int) {
    && (forall i :: 0 <= i < |ids| ==> ids[i] in t && Due(t[ids[i]], now))
    && (forall i, j :: 0 <= i < j < |ids| ==> ids[i] != ids[j])
  }

  ghost predicate Enabled(s: State, a: Action) {
    match a
    case Publish(r) => Fresh(s.rows, r)
    case Lease(w, ids, now, _) => WorkerOf(s, w).Idle? && CanLease(s.rows, ids, now)
    case Offer(w, _) =>
      WorkerOf(s, w).Working? && WorkerOf(s, w).reply == Waiting && WorkerOf(s, w).at < |WorkerOf(s, w).batch|
    case Settle(w, _, _, _) =>
      WorkerOf(s, w).Working? && WorkerOf(s, w).reply != Waiting && WorkerOf(s, w).at < |WorkerOf(s, w).batch|
    case Stop(_) => true
    case Operate(id, e) => id in s.rows && (e.Requeue? || e.Discard?)
    case Sweep(_, req) => ValidSweep(req) && !req.dryRun
  }

  function LeaseAll(t: Rows, ids: seq<string>, e: Event): (after: Rows) {
    map id | id in t :: if id in ids then Step(t[id], e) else t[id]
  }

  function Snapshots(t: Rows, ids: seq<string>): (b: seq<Snapshot>)
    requires forall i :: 0 <= i < |ids| ==> ids[i] in t
    ensures |b| == |ids| && forall i :: 0 <= i < |ids| ==> b[i] == SnapshotOf(t[ids[i]])
  {
    seq(|ids|, i requires 0 <= i < |ids| => SnapshotOf(t[ids[i]]))
  }

  /** The row event a settlement asks the store for. */
  function Settlement(w: string, k: Worker, now: int, retryIn: int, cause: string): (e: Event) {
    if k.Working? && k.reply == Accepted then Ack(w, now) else Fail(w, now, retryIn, cause)
  }

  function Changed(t: Rows, id: string, e: Event): (after: Rows) {
    if id in t then t[id := Step(t[id], e)] else t
  }

  ghost function Do(s: State, a: Action): (after: State)
    requires Enabled(s, a)
  {
    match a
    case Publish(r) =>
      if DedupKnown(s.rows, r.dedup) then s
      else s.(rows := s.rows[r.id := r], enqueued := s.enqueued + 1, accepted := s.accepted - {r.id})
    case Lease(w, ids, now, until) =>
      var rows := LeaseAll(s.rows, ids, Take(w, now, until));
      s.(rows := rows, workers := s.workers[w := Working(Snapshots(rows, ids), 0, Waiting)])
    case Offer(w, ok) =>
      var k := WorkerOf(s, w);
      s.(workers := s.workers[w := k.(reply := if ok then Accepted else Rejected)],
         accepted := if ok then s.accepted + {k.batch[k.at].id} else s.accepted)
    case Settle(w, now, retryIn, cause) =>
      var k := WorkerOf(s, w);
      s.(rows := Changed(s.rows, k.batch[k.at].id, Settlement(w, k, now, retryIn, cause)),
         workers := s.workers[w := k.(at := k.at + 1, reply := Waiting)])
    case Stop(w) => s.(workers := s.workers[w := Idle])
    case Operate(id, e) => s.(rows := Changed(s.rows, id, e))
    case Sweep(now, req) => s.(rows := Swept(s.rows, now, req), swept := s.swept + |Victims(s.rows, now, req)|)
  }

  ghost predicate Run(h: seq<State>, acts: seq<Action>) {
    && |h| == |acts| + 1
    && h[0] == State(map[], {}, 0, 0, map[])
    && forall i :: 0 <= i < |acts| ==> Enabled(h[i], acts[i]) && After(h, i) == Do(h[i], acts[i])
  }

  ghost function After(h: seq<State>, i: nat): (s: State)
    requires i + 1 < |h|
  {
    h[i + 1]
  }

  // ----- the invariant

  /** A row leased to a worker is the one it has a snapshot of, and an accepted reply was
      recorded for it. */
  ghost predicate WorkerOk(t: Rows, accepted: set<string>, w: string, k: Worker) {
    k.Working? ==>
      && (forall i, j :: 0 <= i < j < |k.batch| ==> k.batch[i].id != k.batch[j].id)
      && (forall i :: k.at <= i < |k.batch| && k.batch[i].id in t && HeldBy(t[k.batch[i].id], w) ==>
            SnapshotOf(t[k.batch[i].id]) == k.batch[i])
      && (k.at < |k.batch| && k.reply == Accepted && k.batch[k.at].id in t && HeldBy(t[k.batch[k.at].id], w) ==>
            k.batch[k.at].id in accepted)
  }

  predicate HeldBy(r: Row, w: string) {
    r.status == Leased && r.leasedBy == w
  }

  ghost predicate RowsOk(t: Rows, accepted: set<string>) {
    && OneToOne(t)
    && (forall id :: id in t ==> RowOk(t[id]))
    && (forall id :: id in t && t[id].status == Delivered ==> id in accepted)
  }

  ghost predicate Inv(s: State) {
    && RowsOk(s.rows, s.accepted)
    && |s.rows| + s.swept == s.enqueued
    && forall w :: w in s.workers ==> WorkerOk(s.rows, s.accepted, w, s.workers[w])
  }

  /** A step takes rows only to states in which a worker without a new lease holds nothing new,
      and forgets acceptance only for rows nobody holds. */
  ghost predicate Tame(t: Rows, accepted: set<string>, u: Rows, accepted2: set<string>, w: string) {
    && (forall id :: id in u && HeldBy(u[id], w) ==> id in t && t[id] == u[id])
    && (forall id :: id in u && HeldBy(u[id], w) && id in accepted ==> id in accepted2)
  }

  lemma TameKeepsWorker(t: Rows, accepted: set<string>, u: Rows, accepted2: set<string>, w: string, k: Worker)
    requires WorkerOk(t, accepted, w, k) && Tame(t, accepted, u, accepted2, w)
    ensures WorkerOk(u, accepted2, w, k)
  {
  }

  lemma StepIsTame(r: Row, e: Event, w: string)
    requires !(e.Take? && e.worker == w)
    ensures HeldBy(Step(r, e), w) ==> Step(r, e) == r
  {
  }

  lemma ChangedIsTame(t: Rows, accepted: set<string>, id: string, e: Event, w: string)
    requires !e.Take?
    ensures Tame(t, accepted, Changed(t, id, e), accepted, w)
  {
    if id in t {
      StepIsTame(t[id], e, w);
    }
  }

  lemma ChangedKeepsRows(t: Rows, accepted: set<string>, id: string, e: Event)
    requires RowsOk(t, accepted) && !e.Take?
    requires e.Ack? && id in t && Applies(t[id], e) ==> id in accepted
    ensures RowsOk(Changed(t, id, e), accepted) && |Changed(t, id, e)| == |t|
  {
    hide RowOk, Step, Applies, OneToOne;
    if id in t {
      StepFollowsTable(t[id], e);
      DeliveredByAck(t[id], e);
      ReplacedKeeps(t, id, Step(t[id], e));
    }
  }

  lemma ReplacedKeeps(t: Rows, id: string, r: Row)
    requires OneToOne(t) && id in t && r.id == t[id].id && r.dedup == t[id].dedup
    ensures OneToOne(t[id := r]) && |t[id := r]| == |t|
  {
    assert t[id := r].Keys == t.Keys;
    assert |t[id := r]| == |t[id := r].Keys| == |t.Keys| == |t|;
  }

  lemma DeliveredByAck(r: Row, e: Event)
    ensures Step(r, e).status == Delivered ==> r.status == Delivered || (e.Ack? && Applies(r, e))
  {
  }

  lemma LeaseKeepsRows(t: Rows, accepted: set<string>, ids: seq<string>, e: Event)
    requires RowsOk(t, accepted) && e.Take?
    ensures RowsOk(LeaseAll(t, ids, e), accepted) && |LeaseAll(t, ids, e)| == |t|
  {
    forall id | id in t
      ensures RowOk(Step(t[id], e)) && Step(t[id], e).id == id && Step(t[id], e).dedup == t[id].dedup
    {
      StepFollowsTable(t[id], e);
    }
    assert LeaseAll(t, ids, e).Keys == t.Keys;
    assert |LeaseAll(t, ids, e)| == |LeaseAll(t, ids, e).Keys| == |t.Keys| == |t|;
  }

  lemma LeaseIsTame(t: Rows, accepted: set<string>, ids: seq<string>, e: Event, w: string)
    requires e.Take? && e.worker != w
    ensures Tame(t, accepted, LeaseAll(t, ids, e), accepted, w)
  {
    forall id | id in t ensures HeldBy(Step(t[id], e), w) ==> Step(t[id], e) == t[id] {
      StepIsTame(t[id], e, w);
    }
  }

  lemma NewBatchOk(t: Rows, accepted: set<string>, w: string, ids: seq<string>)
    requires OneToOne(t) && (forall i :: 0 <= i < |ids| ==> ids[i] in t)
    requires forall i, j :: 0 <= i < j < |ids| ==> ids[i] != ids[j]
    ensures WorkerOk(t, accepted, w, Working(Snapshots(t, ids), 0, Waiting))
  {
  }

  lemma PublishKeeps(s: State, r: Row)
    requires Inv(s) && Fresh(s.rows, r)
    ensures Inv(Do(s, Publish(r)))
  {
    hide RowsOk, WorkerOk, Tame;
    if !DedupKnown(s.rows, r.dedup) {
      var u, accepted := s.rows[r.id := r], s.accepted - {r.id};
      AddedRows(s.rows, s.accepted, r);
      forall w | w in s.workers ensures WorkerOk(u, accepted, w, s.workers[w]) {
        AddedIsTame(s.rows, s.accepted, r, w);
        TameKeepsWorker(s.rows, s.accepted, u, accepted, w, s.workers[w]);
      }
    }
  }

  lemma AddedRows(t: Rows, accepted: set<string>, r: Row)
    requires RowsOk(t, accepted) && Fresh(t, r) && !DedupKnown(t, r.dedup)
    ensures RowsOk(t[r.id := r], accepted - {r.id}) && |t[r.id := r]| == |t| + 1
  {
    hide RowOk;
    NewRowOk(r.id, r.dedup, r.tenant, r.envelope, r.maxAttempts, r.createdAt);
    var u := t[r.id := r];
    assert u.Keys == t.Keys + {r.id};
    assert |u| == |u.Keys| && |t| == |t.Keys|;
  }

  lemma AddedIsTame(t: Rows, accepted: set<string>, r: Row, w: string)
    requires Fresh(t, r)
    ensures Tame(t, accepted, t[r.id := r], accepted - {r.id}, w)
  {
  }

  lemma LeaseKeeps(s: State, w: string, ids: seq<string>, now: int, until: int)
    requires Inv(s) && Enabled(s, Lease(w, ids, now, until))
    ensures Inv(Do(s, Lease(w, ids, now, until)))
  {
    hide RowsOk, WorkerOk, Step;
    var e := Take(w, now, until);
    var u := LeaseAll(s.rows, ids, e);
    LeaseKeepsRows(s.rows, s.accepted, ids, e);
    RowsAreKeyed(u, s.accepted);
    NewBatchOk(u, s.accepted, w, ids);
    forall x | x in s.workers && x != w ensures WorkerOk(u, s.accepted, x, s.workers[x]) {
      LeaseIsTame(s.rows, s.accepted, ids, e, x);
      TameKeepsWorker(s.rows, s.accepted, u, s.accepted, x, s.workers[x]);
    }
  }

  lemma RowsAreKeyed(t: Rows, accepted: set<string>)
    requires RowsOk(t, accepted)
    ensures OneToOne(t)
  {
  }

  lemma OfferKeeps(s: State, w: string, ok: bool)
    requires Inv(s) && Enabled(s, Offer(w, ok))
    ensures Inv(Do(s, Offer(w, ok)))
  {
    var after := Do(s, Offer(w, ok));
    forall x | x in after.workers && x != w ensures WorkerOk(after.rows, after.accepted, x, after.workers[x]) {
      TameKeepsWorker(s.rows, s.accepted, s.rows, after.accepted, x, s.workers[x]);
    }
  }

  lemma SettleKeeps(s: State, w: string, now: int, retryIn: int, cause: string)
    requires Inv(s) && Enabled(s, Settle(w, now, retryIn, cause))
    ensures Inv(Do(s, Settle(w, now, retryIn, cause)))
  {
    hide RowsOk, Step;
    var k := WorkerOf(s, w);
    var id, e := k.batch[k.at].id, Settlement(w, k, now, retryIn, cause);
    assert e.Ack? && id in s.rows && Applies(s.rows[id], e) ==> id in s.accepted;
    ChangedKeepsRows(s.rows, s.accepted, id, e);
    var after := Do(s, Settle(w, now, retryIn, cause));
    forall x | x in after.workers ensures WorkerOk(after.rows, after.accepted, x, after.workers[x]) {
      ChangedIsTame(s.rows, s.accepted, id, e, x);
      TameKeepsWorker(s.rows, s.accepted, after.rows, s.accepted, x, s.workers[x]);
    }
  }

  lemma OperateKeeps(s: State, id: string, e: Event)
    requires Inv(s) && Enabled(s, Operate(id, e))
    ensures Inv(Do(s, Operate(id, e)))
  {
    hide RowsOk, Step, WorkerOk;
    ChangedKeepsRows(s.rows, s.accepted, id, e);
    forall x | x in s.workers ensures WorkerOk(Changed(s.rows, id, e), s.accepted, x, s.workers[x]) {
      ChangedIsTame(s.rows, s.accepted, id, e, x);
      TameKeepsWorker(s.rows, s.accepted, Changed(s.rows, id, e), s.accepted, x, s.workers[x]);
    }
  }

  lemma SweepKeeps(s: State, now: int, req: SweepRequest)
    requires Inv(s) && Enabled(s, Sweep(now, req))
    ensures Inv(Do(s, Sweep(now, req)))
  {
    hide WorkerOk, Victims, RowsOk, Tame, Swept;
    SweptRows(s.rows, s.accepted, now, req);
    var u := Swept(s.rows, now, req);
    forall x | x in s.workers ensures WorkerOk(u, s.accepted, x, s.workers[x]) {
      SweptIsTame(s.rows, s.accepted, now, req, x);
      TameKeepsWorker(s.rows, s.accepted, u, s.accepted, x, s.workers[x]);
    }
  }

  lemma SweptRows(t: Rows, accepted: set<string>, now: int, req: SweepRequest)
    requires RowsOk(t, accepted) && ValidSweep(req)
    ensures RowsOk(Swept(t, now, req), accepted) && |Swept(t, now, req)| + |Victims(t, now, req)| == |t|
  {
    hide Victims, RowOk;
    SweepRound(t, now, req);
  }

  lemma SweptIsTame(t: Rows, accepted: set<string>, now: int, req: SweepRequest, w: string)
    requires ValidSweep(req)
    ensures Tame(t, accepted, Swept(t, now, req), accepted, w)
  {
    hide Victims;
  }

  lemma DoKeeps(s: State, a: Action)
    requires Inv(s) && Enabled(s, a)
    ensures Inv(Do(s, a))
  {
    match a {
      case Publish(r) => PublishKeeps(s, r);
      case Lease(w, ids, now, until) => LeaseKeeps(s, w, ids, now, until);
      case Offer(w, ok) => OfferKeeps(s, w, ok);
      case Settle(w, now, retryIn, cause) => SettleKeeps(s, w, now, retryIn, cause);
      case Stop(w) =>
      case Operate(id, e) => OperateKeeps(s, id, e);
      case Sweep(now, req) => SweepKeeps(s, now, req);
    }
  }

  lemma {:induction false} ReachableInv(h: seq<State>, acts: seq<Action>, i: nat)
    requires Run(h, acts) && i < |h|
    ensures Inv(h[i])
    decreases i
  {
    hide Inv, Do, Enabled;
    if i == 0 {
      EmptyIsFine();
    } else {
      ReachableInv(h, acts, i - 1);
      DoKeeps(h[i - 1], acts[i - 1]);
      assert After(h, i - 1) == h[i];
    }
  }

  lemma EmptyIsFine()
    ensures Inv(State(map[], {}, 0, 0, map[]))
  {
  }

  // ----- results

  ghost function Having(t: Rows, s: Status): (ids: set<string>) {
    set id | id in t && t[id].status == s
  }

  /** The five statuses partition the table. */
  lemma FiveClasses(t: Rows)
    ensures |t| ==
            |Having(t, Pending)| + |Having(t, Leased)| + |Having(t, Delivered)| + |Having(t, Dead)| +
            |Having(t, Discarded)|
  {
    FiveSets(t.Keys, Having(t, Pending), Having(t, Leased), Having(t, Delivered), Having(t, Dead),
             Having(t, Discarded));
    assert |t| == |t.Keys|;
  }

  lemma FiveSets(all: set<string>, a: set<string>, b: set<string>, c: set<string>, d: set<string>, e: set<string>)
    requires a !! b !! c !! d !! e && all == a + b + c + d + e
    ensures |all| == |a| + |b| + |c| + |d| + |e|
  {
    assert |a + b| == |a| + |b|;
    assert |a + b + c| == |a + b| + |c|;
    assert |a + b + c + d| == |a + b + c| + |d|;
  }

  /** No delivery is lost: in every reachable state the enqueued rows are those of the five
      status classes plus the swept ones, and a row that says delivered was accepted by the
      sink. */
  lemma NoDeliveryIsLost(h: seq<State>, acts: seq<Action>, i: nat)
    requires Run(h, acts) && i < |h|
    ensures h[i].enqueued ==
            |Having(h[i].rows, Pending)| + |Having(h[i].rows, Leased)| + |Having(h[i].rows, Delivered)| +
                             |Having(h[i].rows, Dead)| + |Having(h[i].rows, Discarded)| + h[i].swept
    ensures forall id :: id in h[i].rows && h[i].rows[id].status == Delivered ==> id in h[i].accepted
    ensures OneToOne(h[i].rows) && forall id :: id in h[i].rows ==> RowOk(h[i].rows[id])
  {
    ReachableInv(h, acts, i);
    FiveClasses(h[i].rows);
  }

  /** Rows leave the table only through a sweep, and only delivered or discarded. */
  lemma OnlyTerminalRowsLeave(h: seq<State>, acts: seq<Action>, i: nat, id: string)
    requires Run(h, acts) && i < |acts| && id in h[i].rows && id !in After(h, i).rows
    ensures acts[i].Sweep? && h[i].rows[id].status in {Delivered, Discarded}
  {
    ReachableInv(h, acts, i);
    InvIsKeyed(h[i]);
    hide Run, Inv;
    StepLoses(h[i], acts[i], id);
  }

  lemma StepLoses(s: State, a: Action, id: string)
    requires OneToOne(s.rows) && Enabled(s, a) && id in s.rows && id !in Do(s, a).rows
    ensures a.Sweep? && s.rows[id].status in {Delivered, Discarded}
  {
    hide Victims, Step, OneToOne, DedupKnown, Fresh, CanLease;
    match a {
      case Sweep(now, req) => SweepRound(s.rows, now, req);
      case _ =>
    }
  }

  lemma InvIsKeyed(s: State)
    requires Inv(s)
    ensures OneToOne(s.rows)
  {
  }

  /** A dispatcher reports a failure as dead-lettered from its snapshot; whenever the store
      records the failure it agrees, whatever other dispatchers and operators did meanwhile. */
  lemma SettlementsAgree(h: seq<State>, acts: seq<Action>, i: nat)
    requires Run(h, acts) && i < |acts| && acts[i].Settle? && WorkerOf(h[i], acts[i].worker).reply == Rejected
    ensures var k := WorkerOf(h[i], acts[i].worker);
            var msg, e := k.batch[k.at], Settlement(acts[i].worker, k, acts[i].now, acts[i].retryIn, acts[i].cause);
            msg.id in h[i].rows && Applies(h[i].rows[msg.id], e) ==>
              msg.id in After(h, i).rows &&
              (After(h, i).rows[msg.id].status == Dead <==> msg.attempts >= msg.maxAttempts)
  {
    ReachableInv(h, acts, i);
    var k := WorkerOf(h[i], acts[i].worker);
    assert WorkerOk(h[i].rows, h[i].accepted, acts[i].worker, k);
  }
}
