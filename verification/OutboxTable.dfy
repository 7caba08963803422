/** The outbox as a table of rows by id: retention sweeps and conservation. */
module OutboxTable {
  import opened Base
  import opened OutboxRow

  type Rows = map<string, Row>

  /** Rows are stored under their id, and ids and dedup keys correspond one to one. */
  ghost predicate OneToOne(t: Rows) {
    && (forall id :: id in t ==> t[id].id == id)
    && (forall a, b :: a in t && b in t && t[a].dedup == t[b].dedup ==> a == b)
  }

  ghost predicate DedupKnown(t: Rows, dedup: string) {
    exists id :: id in t && t[id].dedup == dedup
  }

  // ----- retention

  datatype SweepRequest = SweepRequest(delivered: int, discarded: int, limit: int, dryRun: bool)

  const MAX_SWEEP := 1000

  predicate ValidSweep(req: SweepRequest) {
    req.delivered >= 0 && req.discarded >= 0 && 1 <= req.limit <= MAX_SWEEP
  }

  function TerminalAt(r: Row): (at: Option<int>) {
    match r.status
    case Delivered => r.deliveredAt
    case Discarded => r.discardedAt
    case _ => None
  }

  /** A terminal row of one class at least `horizon` old; horizon zero exempts the class. */
  predicate Eligible(r: Row, status: Status, cutoff: int, horizon: int) {
    && horizon > 0 && r.status == status
    && TerminalAt(r).Some? && TerminalAt(r).value <= cutoff - horizon
  }

  /** Delivered or discarded at least as long ago as the class is kept. */
  predicate PastHorizon(r: Row, cutoff: int, req: SweepRequest) {
    || (r.status == Delivered && req.delivered > 0 && r.deliveredAt.Some? &&
        r.deliveredAt.value + req.delivered <= cutoff)
    || (r.status == Discarded && req.discarded > 0 && r.discardedAt.Some? &&
        r.discardedAt.value + req.discarded <= cutoff)
  }

  /** Eligible for a round is exactly what is past its horizon. */
  lemma EligibleIffPastHorizon(r: Row, cutoff: int, req: SweepRequest)
    ensures Eligible(r, Delivered, cutoff, req.delivered) || Eligible(r, Discarded, cutoff, req.discarded) <==>
              PastHorizon(r, cutoff, req)
    ensures Eligible(r, Delivered, cutoff, req.delivered) ==> r.status == Delivered
    ensures Eligible(r, Discarded, cutoff, req.discarded) ==> r.status == Discarded
  {
  }

  lemma {:induction false} TerminalRowStays(r: Row, es: seq<Event>)
    requires r.status == Delivered || r.status == Discarded
    ensures Steps(r, es) == r
    decreases |es|
  {
    if es != [] {
      TerminalRowStays(r, es[1..]);
    }
  }

  /** A row delivered at some time is eligible from that time plus the horizon of its class on, never
      before, whatever is tried in between. */
  lemma DeliveredIsKept(r: Row, worker: string, at: int, es: seq<Event>, cutoff: int, req: SweepRequest)
    requires r.status == Leased && r.leasedBy == worker
    ensures PastHorizon(Steps(Step(r, Ack(worker, at)), es), cutoff, req) <==>
              req.delivered > 0 && cutoff >= at + req.delivered
  {
    TerminalRowStays(Step(r, Ack(worker, at)), es);
  }

  /** The same for a discarded one. */
  lemma DiscardedIsKept(r: Row, at: int, es: seq<Event>, cutoff: int, req: SweepRequest)
    requires RowOk(r) && r.status == Dead
    ensures PastHorizon(Steps(Step(r, Discard(r.tenant, r.generation, at)), es), cutoff, req) <==>
              req.discarded > 0 && cutoff >= at + req.discarded
  {
    TerminalRowStays(Step(r, Discard(r.tenant, r.generation, at)), es);
  }

  function SweepKey(r: Row): (k: Key) {
    Key(if TerminalAt(r).Some? then TerminalAt(r).value else 0, r.id)
  }

  ghost function EligibleKeys(t: Rows, status: Status, cutoff: int, horizon: int): (ks: set<Key>) {
    set id | id in t && Eligible(t[id], status, cutoff, horizon) :: SweepKey(t[id])
  }

  /** Oldest delivered rows first, then oldest discarded rows with what is left of the limit. */
  ghost function Victims(t: Rows, cutoff: int, req: SweepRequest): (ks: seq<Key>)
    requires ValidSweep(req)
  {
    var delivered := Ascending(EligibleKeys(t, Delivered, cutoff, req.delivered));
    var discarded := Ascending(EligibleKeys(t, Discarded, cutoff, req.discarded));
    var take := Min(req.limit, |delivered|);
    delivered[..take] + discarded[..Min(req.limit - take, |discarded|)]
  }

  ghost function Ids(ks: seq<Key>): (r: set<string>) {
    set k | k in ks :: k.id
  }

  ghost function Swept(t: Rows, cutoff: int, req: SweepRequest): (after: Rows)
    requires ValidSweep(req)
  {
    t - Ids(Victims(t, cutoff, req))
  }

  ghost function AllEligible(t: Rows, cutoff: int, req: SweepRequest): (r: set<string>) {
    set id |
      id in t &&
      (Eligible(t[id], Delivered, cutoff, req.delivered) || Eligible(t[id], Discarded, cutoff, req.discarded))
  }

  lemma KeyIsRow(t: Rows, status: Status, cutoff: int, horizon: int, k: Key)
    requires OneToOne(t)
    ensures k in EligibleKeys(t, status, cutoff, horizon) <==>
              k.id in t && Eligible(t[k.id], status, cutoff, horizon) && SweepKey(t[k.id]) == k
  {
  }

  /** A class has as many keys as rows. */
  lemma {:induction false} KeysCount(t: Rows, status: Status, cutoff: int, horizon: int, ids: set<string>)
    requires OneToOne(t) && forall id :: id in ids <==> id in t && Eligible(t[id], status, cutoff, horizon)
    ensures |EligibleKeys(t, status, cutoff, horizon)| == |ids|
    decreases |ids|
  {
    var keys := EligibleKeys(t, status, cutoff, horizon);
    if ids == {} {
      assert keys == {};
    } else {
      var id :| id in ids;
      var u := t - {id};
      KeysCount(u, status, cutoff, horizon, ids - {id});
      assert EligibleKeys(u, status, cutoff, horizon) == keys - {SweepKey(t[id])} by {
        forall k ensures k in EligibleKeys(u, status, cutoff, horizon) <==> k in keys && k != SweepKey(t[id]) {
          KeyIsRow(t, status, cutoff, horizon, k);
          KeyIsRow(u, status, cutoff, horizon, k);
        }
      }
      assert SweepKey(t[id]) in keys;
    }
  }

  /** Victims are terminal, eligible, pairwise different and never more than the limit. */
  lemma VictimsAreEligible(t: Rows, cutoff: int, req: SweepRequest, i: nat)
    requires OneToOne(t) && ValidSweep(req) && i < |Victims(t, cutoff, req)|
    ensures var k := Victims(t, cutoff, req)[i];
            && k.id in t && SweepKey(t[k.id]) == k && t[k.id].status in {Delivered, Discarded}
            && k.id in AllEligible(t, cutoff, req) && PastHorizon(t[k.id], cutoff, req)
    ensures |Victims(t, cutoff, req)| <= req.limit
    ensures forall j :: 0 <= j < i ==> Victims(t, cutoff, req)[j].id != Victims(t, cutoff, req)[i].id
  {
    var ks := Victims(t, cutoff, req);
    forall j | 0 <= j <= i
      ensures ks[j] in EligibleKeys(t, Delivered, cutoff, req.delivered) ||
              ks[j] in EligibleKeys(t, Discarded, cutoff, req.discarded)
      ensures ks[j].id in t && SweepKey(t[ks[j].id]) == ks[j] && t[ks[j].id].status in {Delivered, Discarded}
      ensures ks[j].id in AllEligible(t, cutoff, req) && PastHorizon(t[ks[j].id], cutoff, req)
    {
      VictimClass(t, cutoff, req, j);
      KeyIsRow(t, Delivered, cutoff, req.delivered, ks[j]);
      KeyIsRow(t, Discarded, cutoff, req.discarded, ks[j]);
      EligibleIffPastHorizon(t[ks[j].id], cutoff, req);
    }
    forall j | 0 <= j < i ensures ks[j].id != ks[i].id {
      VictimsDiffer(t, cutoff, req, j, i);
    }
  }

  lemma VictimClass(t: Rows, cutoff: int, req: SweepRequest, i: nat)
    requires ValidSweep(req) && i < |Victims(t, cutoff, req)|
    ensures var k := Victims(t, cutoff, req)[i];
            var take := Min(req.limit, |EligibleKeys(t, Delivered, cutoff, req.delivered)|);
            k in (if i < take then EligibleKeys(t, Delivered, cutoff, req.delivered)
                  else EligibleKeys(t, Discarded, cutoff, req.discarded))
  {
    var delivered := Ascending(EligibleKeys(t, Delivered, cutoff, req.delivered));
    var discarded := Ascending(EligibleKeys(t, Discarded, cutoff, req.discarded));
    var take := Min(req.limit, |delivered|);
    var k := Victims(t, cutoff, req)[i];
    if i < take {
      assert k == delivered[i] && k in Elements(delivered);
    } else {
      assert k == discarded[i - take] && k in Elements(discarded);
    }
  }

  lemma VictimsDiffer(t: Rows, cutoff: int, req: SweepRequest, i: nat, j: nat)
    requires OneToOne(t) && ValidSweep(req) && i < j < |Victims(t, cutoff, req)|
    ensures Victims(t, cutoff, req)[i].id != Victims(t, cutoff, req)[j].id
  {
    hide EligibleKeys, Eligible;
    var ks := Victims(t, cutoff, req);
    VictimClass(t, cutoff, req, i);
    VictimClass(t, cutoff, req, j);
    ClassKey(t, cutoff, req, ks[i]);
    ClassKey(t, cutoff, req, ks[j]);
    LessTotal(ks[i], ks[i]);
    assert ks[i] != ks[j];
  }

  lemma ClassKey(t: Rows, cutoff: int, req: SweepRequest, k: Key)
    requires OneToOne(t)
    ensures k in EligibleKeys(t, Delivered, cutoff, req.delivered) ==>
              k.id in t && t[k.id].status == Delivered && SweepKey(t[k.id]) == k
    ensures k in EligibleKeys(t, Discarded, cutoff, req.discarded) ==>
              k.id in t && t[k.id].status == Discarded && SweepKey(t[k.id]) == k
  {
  }

  ghost function ClassIds(t: Rows, status: Status, cutoff: int, horizon: int): (r: set<string>) {
    set id | id in t && Eligible(t[id], status, cutoff, horizon)
  }

  lemma {:induction false} DistinctIds(ks: seq<Key>)
    requires forall i, j :: 0 <= i < j < |ks| ==> ks[i].id != ks[j].id
    ensures |Ids(ks)| == |ks|
    decreases |ks|
  {
    if ks == [] {
      assert Ids(ks) == {};
    } else {
      var last, rest := ks[|ks| - 1], ks[..|ks| - 1];
      DistinctIds(rest);
      assert forall k :: k in ks <==> k in rest || k == last by { assert ks == rest + [last]; }
      assert Ids(ks) == Ids(rest) + {last.id};
      assert forall i :: 0 <= i < |rest| ==> rest[i] == ks[i];
    }
  }

  /** When a terminal row was delivered or discarded. */
  function TerminalTime(r: Row): (at: int) {
    if r.status == Delivered && r.deliveredAt.Some? then r.deliveredAt.value
    else if r.status == Discarded && r.discardedAt.Some? then r.discardedAt.value else 0
  }

  lemma KeyOrder(a: Row, b: Row)
    ensures Less(SweepKey(a), SweepKey(b)) <==>
              TerminalTime(a) < TerminalTime(b) || (TerminalTime(a) == TerminalTime(b) && IdLess(a.id, b.id))
  {
  }

  /** What a round chooses from is exactly what is past its horizon. */
  lemma AllEligibleIff(t: Rows, cutoff: int, req: SweepRequest, id: string)
    ensures id in AllEligible(t, cutoff, req) <==> id in t && PastHorizon(t[id], cutoff, req)
  {
    if id in t {
      EligibleIffPastHorizon(t[id], cutoff, req);
    }
  }

  /** A round removes exactly as many rows as the limit and the eligible rows allow. */
  lemma SweepTakesLimit(t: Rows, cutoff: int, req: SweepRequest)
    requires OneToOne(t) && ValidSweep(req)
    ensures |Victims(t, cutoff, req)| == Min(req.limit, |AllEligible(t, cutoff, req)|)
    ensures |Ids(Victims(t, cutoff, req))| == |Victims(t, cutoff, req)|
    ensures Ids(Victims(t, cutoff, req)) <= AllEligible(t, cutoff, req)
  {
    hide Victims, Eligible, EligibleKeys;
    var ks := Victims(t, cutoff, req);
    forall i, j | 0 <= i < j < |ks| ensures ks[i].id != ks[j].id {
      VictimsDiffer(t, cutoff, req, i, j);
    }
    DistinctIds(ks);
    forall i | 0 <= i < |ks| ensures ks[i].id in AllEligible(t, cutoff, req) {
      VictimsAreEligible(t, cutoff, req, i);
    }
    VictimsCount(t, cutoff, req);
    var d, x := ClassIds(t, Delivered, cutoff, req.delivered), ClassIds(t, Discarded, cutoff, req.discarded);
    KeysCount(t, Delivered, cutoff, req.delivered, d);
    KeysCount(t, Discarded, cutoff, req.discarded, x);
    assert d !! x by { ClassesDisjoint(t, cutoff, req); }
    assert AllEligible(t, cutoff, req) == d + x;
  }

  lemma VictimsCount(t: Rows, cutoff: int, req: SweepRequest)
    requires ValidSweep(req)
    ensures |Victims(t, cutoff, req)| == Min(req.limit, |EligibleKeys(t, Delivered, cutoff, req.delivered)| +
                                                        |EligibleKeys(t, Discarded, cutoff, req.discarded)|)
  {
  }

  lemma ClassesDisjoint(t: Rows, cutoff: int, req: SweepRequest)
    ensures ClassIds(t, Delivered, cutoff, req.delivered) !! ClassIds(t, Discarded, cutoff, req.discarded)
  {
  }

  /** The victims of a class are its oldest rows, and no discarded row goes while an
      eligible delivered row stays. */
  lemma VictimsAreOldest(t: Rows, cutoff: int, req: SweepRequest, gone: string, stays: string)
    requires OneToOne(t) && ValidSweep(req)
    requires gone in Ids(Victims(t, cutoff, req))
    requires stays in t && PastHorizon(t[stays], cutoff, req) && stays !in Ids(Victims(t, cutoff, req))
    ensures gone in t && stays in t
    ensures t[gone].status == t[stays].status ==>
              var a, b := TerminalTime(t[gone]), TerminalTime(t[stays]); a < b || (a == b && IdLess(gone, stays))
    ensures t[gone].status == Discarded ==> t[stays].status == Discarded
  {
    hide Victims, Less, EligibleKeys;
    AllEligibleIff(t, cutoff, req, stays);
    var ks := Victims(t, cutoff, req);
    var k :| k in ks && k.id == gone;
    var i :| 0 <= i < |ks| && ks[i] == k;
    VictimsAreEligible(t, cutoff, req, i);
    StaysBehind(t, cutoff, req, i, SweepKey(t[stays]));
    KeyIsRow(t, Delivered, cutoff, req.delivered, SweepKey(t[stays]));
    KeyIsRow(t, Discarded, cutoff, req.discarded, SweepKey(t[stays]));
    ClassKey(t, cutoff, req, k);
    KeyOrder(t[gone], t[stays]);
  }

  lemma StaysBehind(t: Rows, cutoff: int, req: SweepRequest, i: nat, k: Key)
    requires OneToOne(t) && ValidSweep(req) && i < |Victims(t, cutoff, req)| && k.id !in Ids(Victims(t, cutoff, req))
    ensures k in EligibleKeys(t, Delivered, cutoff, req.delivered) ==>
              Victims(t, cutoff, req)[i] in EligibleKeys(t, Delivered, cutoff, req.delivered) &&
              Less(Victims(t, cutoff, req)[i], k)
    ensures k in EligibleKeys(t, Discarded, cutoff, req.discarded) ==>
              Victims(t, cutoff, req)[i] in EligibleKeys(t, Delivered, cutoff, req.delivered) ||
              Less(Victims(t, cutoff, req)[i], k)
  {
    hide EligibleKeys, Less, Victims;
    VictimClass(t, cutoff, req, i);
    assert k !in Victims(t, cutoff, req);
    if k in EligibleKeys(t, Delivered, cutoff, req.delivered) {
      BehindDelivered(t, cutoff, req, i, k);
    }
    if k in EligibleKeys(t, Discarded, cutoff, req.discarded) {
      BehindDiscarded(t, cutoff, req, i, k);
    }
  }

  lemma BehindDelivered(t: Rows, cutoff: int, req: SweepRequest, i: nat, k: Key)
    requires ValidSweep(req) && i < |Victims(t, cutoff, req)| && k !in Victims(t, cutoff, req)
    requires k in EligibleKeys(t, Delivered, cutoff, req.delivered)
    ensures i < Min(req.limit, |EligibleKeys(t, Delivered, cutoff, req.delivered)|)
    ensures Less(Victims(t, cutoff, req)[i], k)
  {
    hide EligibleKeys, Less;
    var ks := Victims(t, cutoff, req);
    var delivered := Ascending(EligibleKeys(t, Delivered, cutoff, req.delivered));
    var take := Min(req.limit, |delivered|);
    assert k in Elements(delivered);
    var j :| 0 <= j < |delivered| && delivered[j] == k;
    assert forall l :: 0 <= l < take ==> ks[l] == delivered[l];
    assert i < take && ks[i] == delivered[i];
  }

  lemma BehindDiscarded(t: Rows, cutoff: int, req: SweepRequest, i: nat, k: Key)
    requires ValidSweep(req) && i < |Victims(t, cutoff, req)| && k !in Victims(t, cutoff, req)
    requires k in EligibleKeys(t, Discarded, cutoff, req.discarded)
    ensures i >= Min(req.limit, |EligibleKeys(t, Delivered, cutoff, req.delivered)|) ==>
              Less(Victims(t, cutoff, req)[i], k)
  {
    hide EligibleKeys, Less, Ascending;
    var delivered := Ascending(EligibleKeys(t, Delivered, cutoff, req.delivered));
    var discarded := Ascending(EligibleKeys(t, Discarded, cutoff, req.discarded));
    var take := Min(req.limit, |delivered|);
    if i >= take {
      assert k in Elements(discarded);
      SecondPrefix(delivered[..take], discarded, Min(req.limit - take, |discarded|), i, k);
    }
  }

  /** Behind a prefix of an increasing sequence come only larger keys. */
  lemma SecondPrefix(first: seq<Key>, s: seq<Key>, n: nat, i: nat, k: Key)
    requires n <= |s| && |first| <= i < |first| + n && Increasing(s) && k in s && k !in first + s[..n]
    ensures Less((first + s[..n])[i], k)
  {
    hide Less;
    var j :| 0 <= j < |s| && s[j] == k;
    assert forall l :: 0 <= l < n ==> s[l] in s[..n];
    assert j >= n;
    assert (first + s[..n])[i] == s[i - |first|];
  }

  /** A round takes its victims out of the table and out of the eligible rows, nothing else. */
  lemma SweepRound(t: Rows, cutoff: int, req: SweepRequest)
    requires OneToOne(t) && ValidSweep(req)
    ensures OneToOne(Swept(t, cutoff, req))
    ensures AllEligible(Swept(t, cutoff, req), cutoff, req) ==
              AllEligible(t, cutoff, req) - Ids(Victims(t, cutoff, req))
    ensures |AllEligible(Swept(t, cutoff, req), cutoff, req)| ==
              |AllEligible(t, cutoff, req)| - Min(req.limit, |AllEligible(t, cutoff, req)|)
    ensures |Swept(t, cutoff, req)| == |t| - |Victims(t, cutoff, req)|
    ensures forall id :: id in t && t[id].status !in {Delivered, Discarded} ==> id in Swept(t, cutoff, req)
  {
    hide Victims, Eligible;
    SweepTakesLimit(t, cutoff, req);
    var gone, all := Ids(Victims(t, cutoff, req)), AllEligible(t, cutoff, req);
    hide Ids;
    RemovedSize(t, gone);
    EligibleLeft(t, cutoff, req, gone);
    forall id | id in t && t[id].status !in {Delivered, Discarded} ensures id !in all {
      NotEligible(t[id], cutoff, req);
    }
  }

  lemma EligibleLeft(t: Rows, cutoff: int, req: SweepRequest, gone: set<string>)
    ensures AllEligible(t - gone, cutoff, req) == AllEligible(t, cutoff, req) - gone
  {
    hide Eligible;
  }

  lemma RemovedSize(t: Rows, gone: set<string>)
    requires gone <= t.Keys
    ensures |t - gone| == |t| - |gone|
  {
    assert (t - gone).Keys == t.Keys - gone;
    assert |t| == |t.Keys| && |t - gone| == |(t - gone).Keys|;
  }

  lemma NotEligible(r: Row, cutoff: int, req: SweepRequest)
    requires r.status !in {Delivered, Discarded}
    ensures !Eligible(r, Delivered, cutoff, req.delivered) && !Eligible(r, Discarded, cutoff, req.discarded)
  {
  }

  ghost function Rounds(t: Rows, cutoff: int, req: SweepRequest, n: nat): (after: Rows)
    requires ValidSweep(req)
    decreases n
  {
    if n == 0 then t else Rounds(Swept(t, cutoff, req), cutoff, req, n - 1)
  }

  /** What n rounds leave of e eligible rows. */
  function Left(e: nat, limit: int, n: nat): (r: int) {
    e - Min(n * limit, e)
  }

  lemma LeftStep(e: nat, limit: int, n: nat)
    requires limit >= 1
    ensures Left(e, limit, 0) == e
    ensures n > 0 ==> Left(e - Min(limit, e), limit, n - 1) == Left(e, limit, n)
  {
    assert n * limit == (n - 1) * limit + limit;
    if n > 0 {
      assert (n - 1) * limit >= 0;
    }
  }

  /** Repeated rounds at a fixed instant: n rounds take n times the limit. */
  lemma {:induction false} RoundsTake(t: Rows, cutoff: int, req: SweepRequest, n: nat)
    requires OneToOne(t) && ValidSweep(req)
    ensures |AllEligible(Rounds(t, cutoff, req, n), cutoff, req)| == Left(|AllEligible(t, cutoff, req)|, req.limit, n)
    decreases n
  {
    hide Swept, AllEligible, Left, OneToOne;
    LeftStep(|AllEligible(t, cutoff, req)|, req.limit, n);
    if n > 0 {
      SweepRound(t, cutoff, req);
      RoundsTake(Swept(t, cutoff, req), cutoff, req, n - 1);
    }
  }

  /** The eligible rows are gone from round ceil(eligible / limit) on, and not before. */
  lemma RoundsEmpty(t: Rows, cutoff: int, req: SweepRequest, n: nat)
    requires OneToOne(t) && ValidSweep(req)
    ensures AllEligible(Rounds(t, cutoff, req, n), cutoff, req) == {} <==>
              n >= (|AllEligible(t, cutoff, req)| + req.limit - 1) / req.limit
  {
    hide Rounds;
    RoundsTake(t, cutoff, req, n);
    CeilDivision(|AllEligible(t, cutoff, req)|, req.limit, n);
    assert AllEligible(Rounds(t, cutoff, req, n), cutoff, req) == {} <==>
           |AllEligible(Rounds(t, cutoff, req, n), cutoff, req)| == 0;
  }

  lemma {:induction false} MulMonotone(a: int, b: int, limit: int)
    requires a <= b && limit >= 1
    ensures a * limit <= b * limit
    decreases b - a
  {
    if a < b {
      MulMonotone(a, b - 1, limit);
      MulNext(b - 1, limit);
    }
  }

  lemma MulNext(a: int, limit: int)
    ensures (a + 1) * limit == a * limit + limit
  {
  }

  lemma CeilDivision(e: nat, limit: int, n: nat)
    requires limit >= 1
    ensures n * limit >= e <==> n >= (e + limit - 1) / limit
  {
    var q := (e + limit - 1) / limit;
    var m := (e + limit - 1) % limit;
    assert e + limit - 1 == q * limit + m && 0 <= m < limit;
    if n >= q {
      MulMonotone(q, n, limit);
    } else {
      MulMonotone(n + 1, q, limit);
      MulNext(n, limit);
    }
    AboveIff(e, limit, n * limit, q * limit, m, n >= q);
  }

  lemma AboveIff(e: int, limit: int, nl: int, ql: int, m: int, above: bool)
    requires e + limit - 1 == ql + m && 0 <= m < limit
    requires if above then nl >= ql else nl + limit <= ql
    ensures nl >= e <==> above
  {
  }
}
