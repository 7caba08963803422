/** Token renewal in the web process: a serialized queue over frozen cookies and a bounded
    map of renewed sessions. */
module Session {
  import opened Base

  const LEEWAY := 45
  const CACHE_LIMIT := 512
  const DEFAULT_LIFETIME := 300

  datatype SessionKey = SessionKey(sub: string, tenant: string, createdAt: int)

  /** access stands for the tokens and claims renewal does not look at. */
  datatype SessionData = SessionData(access: string, refresh: Option<string>, expiresAt: int, key: SessionKey)

  function EpochAfter(now: int, expiresIn: Option<int>): (t: int)
    ensures expiresIn.None? ==> t == now + 300
    ensures expiresIn.Some? && expiresIn.value >= 1 ==> t == now + expiresIn.value
    ensures expiresIn.Some? && expiresIn.value < 1 ==> t == now + 1
  {
    var s := if expiresIn.Some? then expiresIn.value else DEFAULT_LIFETIME;
    now + if s > 1 then s else 1
  }

  datatype Decision = Fresh(session: SessionData, adopted: bool) | Renew(current: SessionData) | Expired

  predicate Newer(raw: SessionData, cached: Option<SessionData>) {
    cached.Some? && cached.value.expiresAt > raw.expiresAt
  }

  /** The later of cookie and cache, used, renewed or given up. */
  function SelectFresh(raw: SessionData, cached: Option<SessionData>, now: int): (d: Decision) {
    var current := if Newer(raw, cached) then cached.value else raw;
    if current.expiresAt - LEEWAY > now then Fresh(current, Newer(raw, cached))
    else if current.refresh.None? || current.refresh.value == "" then Expired
    else Renew(current)
  }

  /** Whatever is used or renewed is the latest known state of the session; it is used only
      while valid beyond the leeway, and renewed only inside it. */
  lemma SelectsLatest(raw: SessionData, cached: Option<SessionData>, now: int)
    ensures var d := SelectFresh(raw, cached, now);
            && (d.Fresh? ==> d.session.expiresAt > now + 45 && d.session.expiresAt >= raw.expiresAt &&
                             (cached.Some? ==> d.session.expiresAt >= cached.value.expiresAt))
            && (d.Renew? ==> d.current.expiresAt <= now + 45 && d.current.expiresAt >= raw.expiresAt &&
                             (cached.Some? ==> d.current.expiresAt >= cached.value.expiresAt) &&
                             d.current.refresh.Some?)
            && (d.Expired? ==> raw.expiresAt <= now + 45)
  {
  }

  // ----- the bounded map

  /** A map that remembers the order of first insertion. */
  datatype Cache = Cache(order: seq<SessionKey>, entries: map<SessionKey, SessionData>)

  ghost predicate CacheOk(c: Cache) {
    && (forall i, j :: 0 <= i < j < |c.order| ==> c.order[i] != c.order[j])
    && Elements(c.order) == c.entries.Keys && |c.order| <= CACHE_LIMIT
    && (forall k :: k in c.entries ==> c.entries[k].key == k)
  }

  function Lookup(c: Cache, k: SessionKey): (s: Option<SessionData>) {
    if k in c.entries then Some(c.entries[k]) else None
  }

  /** The key that inserting k pushes out, if any. */
  function Evicted(c: Cache, k: SessionKey): (e: Option<SessionKey>) {
    if k !in c.entries && |c.entries| >= CACHE_LIMIT && |c.order| > 0 then Some(c.order[0]) else None
  }

  function DropOldest(c: Cache): (after: Cache)
    requires |c.order| > 0
  {
    Cache(c.order[1..], c.entries - {c.order[0]})
  }

  function Insert(c: Cache, next: SessionData): (after: Cache) {
    Cache(if next.key in c.entries then c.order else c.order + [next.key], c.entries[next.key := next])
  }

  function Remembered(c: Cache, next: SessionData): (after: Cache) {
    Insert(if Evicted(c, next.key).Some? then DropOldest(c) else c, next)
  }

  lemma DropKeeps(c: Cache)
    requires CacheOk(c) && |c.order| > 0
    ensures CacheOk(DropOldest(c)) && |DropOldest(c).order| < CACHE_LIMIT
    ensures c.order[0] in c.entries && DropOldest(c).entries.Keys == c.entries.Keys - {c.order[0]}
  {
    assert c.order[0] in Elements(c.order);
    TailElements(c.order);
  }

  lemma TailElements(s: seq<SessionKey>)
    requires |s| > 0 && forall i, j :: 0 <= i < j < |s| ==> s[i] != s[j]
    ensures Elements(s[1..]) == Elements(s) - {s[0]}
    ensures forall i, j :: 0 <= i < j < |s[1..]| ==> s[1..][i] != s[1..][j]
  {
    var rest := s[1..];
    assert forall i :: 0 <= i < |rest| ==> rest[i] == s[i + 1];
    assert s == [s[0]] + rest;
  }

  lemma InsertKeeps(c: Cache, next: SessionData)
    requires CacheOk(c) && (next.key in c.entries || |c.order| < CACHE_LIMIT)
    ensures CacheOk(Insert(c, next)) && Insert(c, next).entries.Keys == c.entries.Keys + {next.key}
  {
    assert Elements(c.order + [next.key]) == Elements(c.order) + {next.key};
    assert next.key !in c.entries ==> next.key !in Elements(c.order);
  }

  /** If nothing is pushed out there is room. */
  lemma RoomUnlessEvicted(c: Cache, k: SessionKey)
    requires CacheOk(c) && Evicted(c, k).None?
    ensures k in c.entries || |c.order| < CACHE_LIMIT
  {
    DistinctCount(c.order, c.entries.Keys);
    assert |c.entries| == |c.entries.Keys|;
  }

  lemma RememberedOk(c: Cache, next: SessionData)
    requires CacheOk(c)
    ensures CacheOk(Remembered(c, next))
  {
    hide CacheOk;
    if Evicted(c, next.key).Some? {
      DropKeeps(c);
      InsertKeeps(DropOldest(c), next);
    } else {
      RoomUnlessEvicted(c, next.key);
      InsertKeeps(c, next);
    }
  }

  /** Remembering keeps the map bounded and ordered, and loses nothing but the evicted key. */
  lemma RememberedKeeps(c: Cache, next: SessionData)
    requires CacheOk(c)
    ensures CacheOk(Remembered(c, next))
    ensures Remembered(c, next).entries ==
              (if Evicted(c, next.key).Some? then c.entries - {Evicted(c, next.key).value}
               else c.entries)[next.key := next]
    ensures Evicted(c, next.key).Some? ==> Evicted(c, next.key).value in c.entries && next.key !in c.entries
    ensures Remembered(c, next).order ==
              if next.key in c.entries then c.order
              else (if |c.order| == 512 then c.order[1..] else c.order) + [next.key]
  {
    RememberedOk(c, next);
    DistinctCount(c.order, c.entries.Keys);
    assert |c.entries| == |c.entries.Keys|;
    if Evicted(c, next.key).Some? {
      assert c.order[0] in Elements(c.order);
    }
  }

  // ----- the process

  /** What came back from the token endpoint: a rotated token with a lifetime, a refusal, or
      nothing although the provider has spent the token. */
  datatype Grant = Granted(access: string, refresh: string, expiresIn: Option<int>) | Denied | Lost

  /** A renewed session. */
  function Next(current: SessionData, g: Grant, now: int): (s: SessionData)
    requires g.Granted?
  {
    current.(access := g.access, refresh := Some(g.refresh), expiresAt := EpochAfter(now, g.expiresIn))
  }

  class RenewedSessions {
    var order: seq<SessionKey>
    var entries: map<SessionKey, SessionData>

    ghost function Contents(): (c: Cache)
      reads this
    {
      Cache(order, entries)
    }

    constructor ()
      ensures Contents() == Cache([], map[]) && CacheOk(Contents())
    {
      order, entries := [], map[];
    }

    method Remember(next: SessionData)
      requires CacheOk(Contents())
      modifies this
      ensures CacheOk(Contents()) && Contents() == Remembered(old(Contents()), next)
    {
      RememberedKeeps(Contents(), next);
      if next.key !in entries && |entries| >= CACHE_LIMIT && |order| > 0 {
        var oldest := order[0];
        order, entries := order[1..], entries - {oldest};
      }
      if next.key !in entries {
        order := order + [next.key];
      }
      entries := entries[next.key := next];
    }

    /** What a request does when its turn in the queue comes: decide again on its own frozen
        cookie, present the refresh token if still needed and remember the result. presented is
        the token sent to the provider, if any; grant and later are the answer and its time. */
    method Renewal(raw: SessionData, now: int, grant: Grant, later: int)
      returns (out: Option<SessionData>, presented: Option<string>)
      requires CacheOk(Contents())
      modifies this
      ensures CacheOk(Contents())
      ensures var d := SelectFresh(raw, Lookup(old(Contents()), raw.key), now);
              match d
              case Expired => out == None && presented == None && Contents() == old(Contents())
              case Fresh(s, _) => out == Some(s) && presented == None && Contents() == old(Contents())
              case Renew(current) =>
                && presented == current.refresh
                && (!grant.Granted? ==> out == None && Contents() == old(Contents()))
                && (grant.Granted? ==> out == Some(Next(current, grant, later)) &&
                                       Contents() == Remembered(old(Contents()), Next(current, grant, later)))
      ensures presented.Some? && out.Some? ==> grant.Granted? && out.value.refresh == Some(grant.refresh)
      ensures presented.Some? && out.Some? && grant.Granted? ==>
                out.value.expiresAt == later + match grant.expiresIn
                                               case None => 300
                                               case Some(s) => if s >= 1 then s else 1
    {
      hide CacheOk, Remembered;
      var decision := SelectFresh(raw, if raw.key in entries then Some(entries[raw.key]) else None, now);
      match decision {
        case Expired => return None, None;
        case Fresh(s, _) => return Some(s), None;
        case Renew(current) =>
          presented := current.refresh;
          if !grant.Granted? {
            return None, presented;
          }
          var next := current.(access := grant.access, refresh := Some(grant.refresh),
                               expiresAt := EpochAfter(later, grant.expiresIn));
          Remember(next);
          return Some(next), presented;
      }
    }
  }
}
