/** Run claims: the execution lease of one run, fenced by an (owner, token,
    generation) credential that is minted anew by every acquisition. */
module Claims {
  import opened Base
  import opened Lifecycle

  datatype ClaimStatus = ClaimRunnable | ClaimClaimed

  datatype Claim = Claim(
    status: ClaimStatus,
    owner: string,
    token: string,
    generation: int,
    attempts: int,
    acquiredAt: Option<int>,
    heartbeatAt: Option<int>,
    expiresAt: Option<int>,
    createdAt: int,
    updatedAt: int)

  /** The credential of one acquisition epoch of one run. */
  datatype Ref = Ref(run: string, owner: string, token: string, generation: int)

  /** 9999-12-31T23:59:59Z in seconds, where deadlines saturate. */
  const FAR_FUTURE := 253402300799

  const MAX_OWNER := 256
  const TOKEN_LENGTH := 43

  predicate ValidOwner(owner: string) {
    && 0 < |owner| <= MAX_OWNER
    && forall i :: 0 <= i < |owner| ==> ' ' <= owner[i] && owner[i] != '\U{7f}'
  }

  predicate ValidRef(ref: Ref) {
    ValidOwner(ref.owner) && |ref.token| == TOKEN_LENGTH && ref.generation >= 1
  }

  /** A credential is well formed when its owner has 1 to 256 characters, none a control character, and
      its token exactly 43. */
  lemma ValidRefIff(ref: Ref)
    ensures ValidOwner(ref.owner) <==>
              1 <= |ref.owner| <= 256 && forall c :: c in ref.owner ==> c as int >= 32 && c as int != 127
    ensures ValidRef(ref) <==> ValidOwner(ref.owner) && |ref.token| == 43 && ref.generation >= 1
  {
    if 1 <= |ref.owner| <= 256 {
      assert forall i :: 0 <= i < |ref.owner| ==> ref.owner[i] in ref.owner;
    }
  }

  function ClaimExpiry(now: int, lease: int): (deadline: int)
  {
    var later := now + lease;
    if !(later > now) then FAR_FUTURE else later
  }

  predicate ClaimExpired(expiresAt: Option<int>, now: int) {
    expiresAt.Some? && !(expiresAt.value > now)
  }

  predicate Eligible(c: Claim, now: int) {
    match c.status
    case ClaimRunnable => true
    case ClaimClaimed => ClaimExpired(c.expiresAt, now)
  }

  predicate Matches(c: Claim, ref: Ref) {
    && c.status == ClaimClaimed
    && c.owner == ref.owner && c.token == ref.token && c.generation == ref.generation
  }

  function NewClaim(now: int): (c: Claim) {
    Claim(ClaimRunnable, "", "", 0, 0, None, None, None, now, now)
  }

  /** The next ownership epoch of a claim. */
  function AcquireClaim(c: Claim, owner: string, token: string, now: int, lease: int): (d: Claim) {
    c.(status := ClaimClaimed, owner := owner, token := token,
       generation := c.generation + 1, attempts := c.attempts + 1,
       acquiredAt := Some(now), heartbeatAt := Some(now),
       expiresAt := Some(ClaimExpiry(now, lease)), updatedAt := now)
  }

  function ExtendClaim(c: Claim, now: int, extendFor: int): (d: Claim) {
    c.(heartbeatAt := Some(now), expiresAt := Some(ClaimExpiry(now, extendFor)), updatedAt := now)
  }

  /** Back to runnable; acquiredAt and heartbeatAt keep their last values. */
  function ReleaseClaim(c: Claim, now: int): (d: Claim) {
    c.(status := ClaimRunnable, owner := "", token := "", expiresAt := None, updatedAt := now)
  }

  type Table = map<string, Claim>

  // ----- store operations as functions of the claim table

  function TryCreate(t: Table, r: string, run: Option<RunStatus>, now: int): (o: Outcome<Table>) {
    if run.None? then Err(Invalid("run_claim_run_unknown"))
    else if r in t then Err(Conflict("run_claim_exists"))
    else Ok(t[r := NewClaim(now)])
  }

  function TryAcquire(t: Table, r: string, owner: string, token: string, now: int, lease: int)
    : (o: Outcome<Table>)
  {
    if !ValidOwner(owner) then Err(Invalid("run_claim_owner"))
    else if lease <= 0 then Err(Invalid("run_claim_lease_duration"))
    else if r !in t then Err(NotFound)
    else if !Eligible(t[r], now) then Err(Conflict("run_claim_held"))
    else Ok(t[r := AcquireClaim(t[r], owner, token, now, lease)])
  }

  /** The fencing check in front of every credentialed mutation. */
  function Fenced(t: Table, ref: Ref): (o: Outcome<Claim>) {
    if ref.run !in t then Err(NotFound)
    else if !Matches(t[ref.run], ref) then Err(Conflict("run_claim_stale_fencing"))
    else Ok(t[ref.run])
  }

  function TryHeartbeat(t: Table, ref: Ref, now: int, extendFor: int): (o: Outcome<Table>) {
    if !ValidRef(ref) then Err(Invalid("run_claim_ref"))
    else if extendFor <= 0 then Err(Invalid("run_claim_lease_duration"))
    else
      match Fenced(t, ref)
      case Err(e) => Err(e)
      case Ok(c) =>
        if ClaimExpired(c.expiresAt, now) then Err(Conflict("run_claim_lease_expired"))
        else Ok(t[ref.run := ExtendClaim(c, now, extendFor)])
  }

  function TryRelease(t: Table, ref: Ref, now: int): (o: Outcome<Table>) {
    if !ValidRef(ref) then Err(Invalid("run_claim_ref"))
    else
      match Fenced(t, ref)
      case Err(e) => Err(e)
      case Ok(c) => Ok(t[ref.run := ReleaseClaim(c, now)])
  }

  function TryComplete(t: Table, ref: Ref): (o: Outcome<Table>) {
    if !ValidRef(ref) then Err(Invalid("run_claim_ref"))
    else
      match Fenced(t, ref)
      case Err(e) => Err(e)
      case Ok(_) => Ok(t - {ref.run})
  }

  function TryCleanup(t: Table, r: string, run: Option<RunStatus>): (o: Outcome<Table>) {
    if run.None? then Err(NotFound)
    else if !Terminal(run.value) then Err(Invalid("run_claim_not_terminal"))
    else Ok(t - {r})
  }

  // ----- batch acquisition

  ghost function EligibleKeys(t: Table, now: int): (ks: set<Key>) {
    set r | r in t && Eligible(t[r], now) :: Key(t[r].createdAt, r)
  }

  lemma EligibleKey(t: Table, now: int, k: Key)
    ensures k in EligibleKeys(t, now) <==>
              k.id in t && Eligible(t[k.id], now) && k.at == t[k.id].createdAt
  {
    if k.id in t && Eligible(t[k.id], now) && k.at == t[k.id].createdAt {
      assert k == Key(t[k.id].createdAt, k.id);
    }
  }

  /** Acquire the named rows one after the other, each with its own token. */
  ghost function AcquireAll(t: Table, order: seq<Key>, owner: string, tokens: seq<string>, now: int, lease: int)
    : (u: Table)
    requires |order| <= |tokens| && forall k :: k in order ==> k.id in t
  {
    if order == [] then t else
      AcquireAll(t[order[0].id := AcquireClaim(t[order[0].id], owner, tokens[0], now, lease)],
                 order[1..], owner, tokens[1..], now, lease)
  }

  /** The rows handed back by AcquireAll, in acquisition order. */
  ghost function AcquiredRows(t: Table, order: seq<Key>, owner: string, tokens: seq<string>, now: int, lease: int)
    : (out: seq<Claim>)
    requires |order| <= |tokens| && forall k :: k in order ==> k.id in t
  {
    seq(|order|, i requires 0 <= i < |order| =>
      assert order[i] in order;
      AcquireClaim(t[order[i].id], owner, tokens[i], now, lease))
  }

  /** What a round claims: the first `limit` eligible rows in (createdAt, run) order. */
  ghost function Round(t: Table, now: int, limit: int): (order: seq<Key>)
    requires limit > 0
    ensures forall k :: k in order ==> k.id in t && Eligible(t[k.id], now) && k.at == t[k.id].createdAt
    ensures Increasing(order) && |order| <= limit
  {
    var all := Ascending(EligibleKeys(t, now));
    assert forall k :: k in all ==> k in Elements(all);
    assert |all| > limit ==> forall k :: k in all[..limit] ==> k in all;
    if |all| > limit then all[..limit] else all
  }

  /** A round takes as many eligible rows as the limit allows, and whatever it leaves was created later,
      or at the same time under a greater id. */
  lemma RoundIsOldest(t: Table, now: int, limit: int, k: Key, left: string)
    requires limit > 0 && k in Round(t, now, limit) && left in t && Eligible(t[left], now)
    requires forall x :: x in Round(t, now, limit) ==> x.id != left
    ensures |Round(t, now, limit)| == limit && k.id in t
    ensures t[k.id].createdAt < t[left].createdAt || (t[k.id].createdAt == t[left].createdAt && IdLess(k.id, left))
  {
    hide Less, Eligible, Increasing;
    var all := Ascending(EligibleKeys(t, now));
    var x := Key(t[left].createdAt, left);
    assert x in Elements(all);
    BehindPrefix(all, Round(t, now, limit), k, x);
    OrderOf(k, x);
  }

  /** What is not in a prefix of an increasing sequence comes after all of it. */
  lemma BehindPrefix(all: seq<Key>, some: seq<Key>, k: Key, x: Key)
    requires Increasing(all) && some <= all && k in some && x in all && x !in some
    ensures Less(k, x) && |some| < |all|
  {
    hide Less;
    var i :| 0 <= i < |some| && some[i] == k;
    var j :| 0 <= j < |all| && all[j] == x;
    assert forall n :: 0 <= n < |some| ==> some[n] == all[n] && all[n] in some;
  }

  lemma OrderOf(a: Key, b: Key)
    ensures Less(a, b) <==> a.at < b.at || (a.at == b.at && IdLess(a.id, b.id))
  {
  }

  /** Rows of a round are pairwise different: a key carries its row's creation time. */
  lemma OtherIds(t: Table, order: seq<Key>, i: nat)
    requires i < |order| && Increasing(order)
    requires forall k :: k in order ==> k.id in t && k.at == t[k.id].createdAt
    ensures forall j :: 0 <= j < |order| && j != i ==> order[j].id != order[i].id
  {
    forall j | 0 <= j < |order| && j != i ensures order[j].id != order[i].id {
      assert order[i] in order && order[j] in order;
      LessTotal(order[i], order[j]);
      assert order[i] != order[j];
    }
  }

  /** Every eligible row with its sort key, in no particular order. */
  method CollectEligible(t: Table, now: int) returns (s: seq<(Key, string)>)
    ensures forall i :: 0 <= i < |s| ==>
              s[i].1 in t && Eligible(t[s[i].1], now) && s[i].0 == Key(t[s[i].1].createdAt, s[i].1)
    ensures forall i, j :: 0 <= i < j < |s| ==> s[i].0 != s[j].0
    ensures Elements(Keys(s)) == EligibleKeys(t, now)
  {
    s := [];
    var rest := t.Keys;
    while rest != {}
      invariant rest <= t.Keys
      invariant forall i :: 0 <= i < |s| ==>
                  && s[i].1 in t && s[i].1 !in rest && Eligible(t[s[i].1], now)
                  && s[i].0 == Key(t[s[i].1].createdAt, s[i].1)
      invariant forall i, j :: 0 <= i < j < |s| ==> s[i].0 != s[j].0
      invariant forall r :: r in t && r !in rest && Eligible(t[r], now) ==> (Key(t[r].createdAt, r), r) in s
      decreases |rest|
    {
      var r :| r in rest;
      rest := rest - {r};
      if Eligible(t[r], now) {
        s := s + [(Key(t[r].createdAt, r), r)];
      }
    }
    forall k ensures k in Elements(Keys(s)) <==> k in EligibleKeys(t, now) {
      if k in Keys(s) {
        var i :| 0 <= i < |s| && s[i].0 == k;
      }
      if k in EligibleKeys(t, now) {
        assert (k, k.id) in s;
        var i :| 0 <= i < |s| && s[i] == (k, k.id);
        assert Keys(s)[i] == k;
      }
    }
  }

  /** The row a single-row claim statement selects: first in (createdAt, run) order. */
  method LeastEligible(t: Table, now: int) returns (res: Option<string>)
    ensures res.None? <==> EligibleKeys(t, now) == {}
    ensures res.Some? ==>
              && res.value in t && Eligible(t[res.value], now)
              && forall k | k in EligibleKeys(t, now) && k.id != res.value ::
                   Less(Key(t[res.value].createdAt, res.value), k)
  {
    res := None;
    var rest := t.Keys;
    while rest != {}
      invariant rest <= t.Keys
      invariant res.None? ==> forall r :: r in t && r !in rest ==> !Eligible(t[r], now)
      invariant res.Some? ==>
                  && res.value in t && res.value !in rest && Eligible(t[res.value], now)
                  && forall r :: r in t && r !in rest && Eligible(t[r], now) && r != res.value ==>
                       Less(Key(t[res.value].createdAt, res.value), Key(t[r].createdAt, r))
      decreases |rest|
    {
      var r :| r in rest;
      rest := rest - {r};
      if Eligible(t[r], now) {
        var k := Key(t[r].createdAt, r);
        if res.None? {
          res := Some(r);
        } else {
          var b := Key(t[res.value].createdAt, res.value);
          LessTotal(k, b);
          if Less(k, b) {
            forall q | q in t && q !in rest && Eligible(t[q], now) && q != r
              ensures Less(k, Key(t[q].createdAt, q))
            {
              if q != res.value {
                LessTransitive(k, b, Key(t[q].createdAt, q));
              }
            }
            res := Some(r);
          }
        }
      }
    }
    if res.Some? {
      assert Key(t[res.value].createdAt, res.value) in EligibleKeys(t, now);
    }
  }

  /** The row selected by a single-row statement heads the remaining order. */
  lemma LeastIsNext(t: Table, now: int, rest: seq<Key>, r: string)
    requires Increasing(rest) && EligibleKeys(t, now) == Elements(rest)
    requires r in t && Eligible(t[r], now)
    requires forall k | k in EligibleKeys(t, now) && k.id != r :: Less(Key(t[r].createdAt, r), k)
    ensures rest != [] && rest[0] == Key(t[r].createdAt, r)
  {
    var k := Key(t[r].createdAt, r);
    EligibleKey(t, now, k);
    assert k in Elements(rest);
    var i :| 0 <= i < |rest| && rest[i] == k;
    assert rest[0] in Elements(rest);
    EligibleKey(t, now, rest[0]);
    LessTotal(rest[0], k);
  }

  /** A row acquired for a positive lease is not eligible at the same instant. */
  lemma AcquiredIsIneligible(t: Table, r: string, owner: string, token: string, now: int, lease: int, all: seq<Key>)
    requires r in t && lease > 0 && Increasing(all) && EligibleKeys(t, now) == Elements(all)
    requires all != [] && all[0] == Key(t[r].createdAt, r)
    ensures EligibleKeys(t[r := AcquireClaim(t[r], owner, token, now, lease)], now) == Elements(all[1..])
  {
    var u := t[r := AcquireClaim(t[r], owner, token, now, lease)];
    forall k ensures k in EligibleKeys(u, now) <==> k in Elements(all[1..]) {
      EligibleKey(t, now, k);
      EligibleKey(u, now, k);
      assert k in Elements(all) <==> k == all[0] || k in all[1..];
      LessTotal(all[0], all[0]);
      assert all[0] !in all[1..];
      assert k in EligibleKeys(t, now) && k.id == r ==> k == all[0];
    }
  }

  /** Where a batch stands after its first i rows: table t and rows out. */
  ghost predicate Progress(before: Table, order: seq<Key>, i: nat, t: Table, out: seq<Claim>,
                           owner: string, tokens: seq<string>, now: int, lease: int)
  {
    && i <= |order| <= |tokens| && Increasing(order)
    && (forall k :: k in order ==> k.id in before && k.at == before[k.id].createdAt)
    && t.Keys == before.Keys
    && (forall j :: i <= j < |order| ==> t[order[j].id] == before[order[j].id])
    && AcquireAll(t, order[i..], owner, tokens[i..], now, lease)
       == AcquireAll(before, order, owner, tokens, now, lease)
    && out == AcquiredRows(before, order, owner, tokens, now, lease)[..i]
  }

  lemma ProgressStart(before: Table, order: seq<Key>, owner: string, tokens: seq<string>, now: int, lease: int)
    requires |order| <= |tokens| && Increasing(order)
    requires forall k :: k in order ==> k.id in before && k.at == before[k.id].createdAt
    ensures Progress(before, order, 0, before, [], owner, tokens, now, lease)
  {
    assert order[0..] == order && tokens[0..] == tokens;
  }

  lemma ProgressStep(before: Table, order: seq<Key>, i: nat, t: Table, out: seq<Claim>,
                     owner: string, tokens: seq<string>, now: int, lease: int)
    requires i < |order| && Progress(before, order, i, t, out, owner, tokens, now, lease)
    ensures order[i].id in t
    ensures var c := AcquireClaim(t[order[i].id], owner, tokens[i], now, lease);
            Progress(before, order, i + 1, t[order[i].id := c], out + [c], owner, tokens, now, lease)
  {
    assert order[i] in order;
    assert order[i..][0] == order[i];
    assert order[i..][1..] == order[i + 1..] && tokens[i..][1..] == tokens[i + 1..];
    OtherIds(before, order, i);
  }

  lemma ProgressEnd(before: Table, order: seq<Key>, t: Table, out: seq<Claim>,
                    owner: string, tokens: seq<string>, now: int, lease: int)
    requires Progress(before, order, |order|, t, out, owner, tokens, now, lease)
    ensures t == AcquireAll(before, order, owner, tokens, now, lease)
    ensures out == AcquiredRows(before, order, owner, tokens, now, lease)
  {
    assert order[|order|..] == [];
  }

  lemma SortMembers(s: seq<(Key, string)>, r: seq<(Key, string)>)
    requires r == Sort(s)
    requires forall i :: 0 <= i < |s| ==> s[i].1 == s[i].0.id
    ensures forall i :: 0 <= i < |r| ==> r[i].1 == r[i].0.id
  {
    SortProps(s);
    forall i | 0 <= i < |r| ensures r[i].1 == r[i].0.id {
      assert r[i] in r;
      assert r[i] in s;
    }
  }

  lemma SortedRows(t: Table, now: int, s: seq<(Key, string)>)
    requires forall i :: 0 <= i < |s| ==> s[i].1 == s[i].0.id
    requires forall i, j :: 0 <= i < j < |s| ==> s[i].0 != s[j].0
    requires Elements(Keys(s)) == EligibleKeys(t, now)
    ensures Keys(Sort(s)) == Ascending(EligibleKeys(t, now))
    ensures forall i :: 0 <= i < |Sort(s)| ==> Sort(s)[i].1 == Sort(s)[i].0.id
  {
    SortAscending(s);
    SortMembers(s, Sort(s));
  }

  /** Collect, sort and truncate: the batch of one memory-adapter round. */
  method SelectBatch(t: Table, now: int, limit: int) returns (batch: seq<(Key, string)>)
    requires limit > 0
    ensures Keys(batch) == Round(t, now, limit)
    ensures forall i :: 0 <= i < |batch| ==> batch[i].1 == batch[i].0.id
  {
    var eligible := CollectEligible(t, now);
    batch := Sort(eligible);
    SortedRows(t, now, eligible);
    ghost var all := Keys(batch);
    if |batch| > limit {
      batch := batch[..limit];
      assert Keys(batch) == all[..limit];
    }
  }

  // ----- the repository object of the memory adapter

  /** Claim rows are reachable only through this map, and every operation holds
      the write lock, so each method is one atomic step. The clock, the minted
      tokens and the status column of the runs are inputs. */
  class RunClaimRepository {
    var claims: Table

    constructor ()
      ensures claims == map[]
    {
      claims := map[];
    }

    method Create(r: string, run: Option<RunStatus>, now: int) returns (err: Option<Error>)
      modifies this
      ensures match TryCreate(old(claims), r, run, now)
              case Ok(t) => claims == t && err == None
              case Err(e) => claims == old(claims) && err == Some(e)
    {
      if run.None? {
        return Some(Invalid("run_claim_run_unknown"));
      }
      if r in claims {
        return Some(Conflict("run_claim_exists"));
      }
      claims := claims[r := NewClaim(now)];
      err := None;
    }

    method Acquire(r: string, owner: string, token: string, now: int, lease: int)
      returns (res: Outcome<Claim>)
      modifies this
      ensures match TryAcquire(old(claims), r, owner, token, now, lease)
              case Ok(t) => claims == t && r in claims && res == Ok(claims[r])
              case Err(e) => claims == old(claims) && res == Err(e)
      ensures res.Ok? ==> res.value.acquiredAt == Some(now) && res.value.expiresAt == Some(now + lease)
    {
      if !ValidOwner(owner) {
        return Err(Invalid("run_claim_owner"));
      }
      if lease <= 0 {
        return Err(Invalid("run_claim_lease_duration"));
      }
      if r !in claims {
        return Err(NotFound);
      }
      if !Eligible(claims[r], now) {
        return Err(Conflict("run_claim_held"));
      }
      claims := claims[r := AcquireClaim(claims[r], owner, token, now, lease)];
      res := Ok(claims[r]);
    }

    method Heartbeat(ref: Ref, now: int, extendFor: int) returns (res: Outcome<Claim>)
      modifies this
      ensures match TryHeartbeat(old(claims), ref, now, extendFor)
              case Ok(t) => claims == t && ref.run in claims && res == Ok(claims[ref.run])
              case Err(e) => claims == old(claims) && res == Err(e)
      ensures res.Ok? ==> res.value.heartbeatAt == Some(now) && res.value.expiresAt == Some(now + extendFor)
    {
      if !ValidRef(ref) {
        return Err(Invalid("run_claim_ref"));
      }
      if extendFor <= 0 {
        return Err(Invalid("run_claim_lease_duration"));
      }
      var held := Fenced(claims, ref);
      if held.Err? {
        return Err(held.error);
      }
      if ClaimExpired(held.value.expiresAt, now) {
        return Err(Conflict("run_claim_lease_expired"));
      }
      claims := claims[ref.run := ExtendClaim(held.value, now, extendFor)];
      res := Ok(claims[ref.run]);
    }

    method Release(ref: Ref, now: int) returns (res: Outcome<Claim>)
      modifies this
      ensures match TryRelease(old(claims), ref, now)
              case Ok(t) => claims == t && ref.run in claims && res == Ok(claims[ref.run])
              case Err(e) => claims == old(claims) && res == Err(e)
    {
      if !ValidRef(ref) {
        return Err(Invalid("run_claim_ref"));
      }
      var held := Fenced(claims, ref);
      if held.Err? {
        return Err(held.error);
      }
      claims := claims[ref.run := ReleaseClaim(held.value, now)];
      res := Ok(claims[ref.run]);
    }

    method Complete(ref: Ref) returns (err: Option<Error>)
      modifies this
      ensures match TryComplete(old(claims), ref)
              case Ok(t) => claims == t && err == None
              case Err(e) => claims == old(claims) && err == Some(e)
    {
      if !ValidRef(ref) {
        return Some(Invalid("run_claim_ref"));
      }
      var held := Fenced(claims, ref);
      if held.Err? {
        return Some(held.error);
      }
      claims := claims - {ref.run};
      err := None;
    }

    method CleanupTerminal(r: string, run: Option<RunStatus>) returns (err: Option<Error>)
      modifies this
      ensures match TryCleanup(old(claims), r, run)
              case Ok(t) => claims == t && err == None
              case Err(e) => claims == old(claims) && err == Some(e)
    {
      if run.None? {
        return Some(NotFound);
      }
      if !Terminal(run.value) {
        return Some(Invalid("run_claim_not_terminal"));
      }
      claims := claims - {r};
      err := None;
    }

    /** The memory adapter: collect the eligible rows, sort them, keep the first
        `limit`, and acquire those. */
    method AcquireNext(owner: string, limit: int, now: int, lease: int, tokens: seq<string>)
      returns (res: Outcome<seq<Claim>>)
      requires limit <= |tokens|
      modifies this
      ensures !ValidOwner(owner) ==> res == Err(Invalid("run_claim_owner"))
      ensures ValidOwner(owner) && limit <= 0 ==> res == Err(Invalid("run_claim_limit"))
      ensures ValidOwner(owner) && limit > 0 && lease <= 0 ==> res == Err(Invalid("run_claim_lease_duration"))
      ensures res.Err? ==> claims == old(claims)
      ensures ValidOwner(owner) && limit > 0 && lease > 0 ==>
                var order := Round(old(claims), now, limit);
                && claims == AcquireAll(old(claims), order, owner, tokens, now, lease)
                && res == Ok(AcquiredRows(old(claims), order, owner, tokens, now, lease))
    {
      if !ValidOwner(owner) {
        return Err(Invalid("run_claim_owner"));
      }
      if limit <= 0 {
        return Err(Invalid("run_claim_limit"));
      }
      if lease <= 0 {
        return Err(Invalid("run_claim_lease_duration"));
      }
      var batch := SelectBatch(claims, now, limit);
      ghost var before, order := claims, Keys(batch);
      ProgressStart(before, order, owner, tokens, now, lease);
      var out := [];
      var i := 0;
      while i < |batch|
        invariant 0 <= i <= |batch| == |order|
        invariant Progress(before, order, i, claims, out, owner, tokens, now, lease)
      {
        var r := batch[i].1;
        ProgressStep(before, order, i, claims, out, owner, tokens, now, lease);
        claims := claims[r := AcquireClaim(claims[r], owner, tokens[i], now, lease)];
        out := out + [claims[r]];
        i := i + 1;
      }
      ProgressEnd(before, order, claims, out, owner, tokens, now, lease);
      res := Ok(out);
    }

    /** The PostgreSQL loop: while rows remain, claim the least eligible one. */
    method AcquireNextOneByOne(owner: string, limit: int, now: int, lease: int, tokens: seq<string>)
      returns (res: Outcome<seq<Claim>>)
      requires limit <= |tokens|
      modifies this
      ensures !ValidOwner(owner) ==> res == Err(Invalid("run_claim_owner"))
      ensures ValidOwner(owner) && limit <= 0 ==> res == Err(Invalid("run_claim_limit"))
      ensures ValidOwner(owner) && limit > 0 && lease <= 0 ==> res == Err(Invalid("run_claim_lease_duration"))
      ensures res.Err? ==> claims == old(claims)
      ensures ValidOwner(owner) && limit > 0 && lease > 0 ==>
                var order := Round(old(claims), now, limit);
                && claims == AcquireAll(old(claims), order, owner, tokens, now, lease)
                && res == Ok(AcquiredRows(old(claims), order, owner, tokens, now, lease))
    {
      if !ValidOwner(owner) {
        return Err(Invalid("run_claim_owner"));
      }
      if limit <= 0 {
        return Err(Invalid("run_claim_limit"));
      }
      if lease <= 0 {
        return Err(Invalid("run_claim_lease_duration"));
      }
      ghost var before := claims;
      ghost var all := Ascending(EligibleKeys(before, now));
      ghost var order := Round(before, now, limit);
      ProgressStart(before, order, owner, tokens, now, lease);
      assert all[0..] == all;
      var out := [];
      while |out| < limit
        invariant |out| <= |order|
        invariant EligibleKeys(claims, now) == Elements(all[|out|..])
        invariant Progress(before, order, |out|, claims, out, owner, tokens, now, lease)
        decreases limit - |out|
      {
        var next := LeastEligible(claims, now);
        var i := |out|;
        assert i < |all| ==> all[i] in Elements(all[i..]);
        if next.None? {
          assert |out| == |order|;
          break;
        }
        var r := next.value;
        LeastIsNext(claims, now, all[i..], r);
        ProgressStep(before, order, i, claims, out, owner, tokens, now, lease);
        AcquiredIsIneligible(claims, r, owner, tokens[i], now, lease, all[i..]);
        assert all[i..][1..] == all[i + 1..];
        claims := claims[r := AcquireClaim(claims[r], owner, tokens[i], now, lease)];
        out := out + [claims[r]];
      }
      assert |out| == |order|;
      ProgressEnd(before, order, claims, out, owner, tokens, now, lease);
      res := Ok(out);
    }
  }
}
