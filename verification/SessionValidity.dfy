/** A session is only used while its access token is valid, over every interleaving of requests. */
module SessionValidity {
  import opened Base
  import opened Session
  import opened SessionRenewal

  /** The action mints the tokens d carries: a login, or the provider's grant. */
  ghost predicate Mints(s: State, a: Action, d: SessionData) {
    || (a.Login? && a.session == d)
    || (a.Answer? && a.grant.Granted? && s.inFlight.Some? && d.access == a.grant.access &&
        d.refresh == Some(a.grant.refresh))
  }

  /** The tokens of d were minted before, and d records the time until which they were granted. */
  ghost predicate MintedBefore(h: seq<State>, acts: seq<Action>, lives: nat -> Option<int>, i: nat, d: SessionData)
    requires i <= |acts| < |h|
  {
    exists j :: 0 <= j < i && Mints(h[j], acts[j], d) && d.expiresAt == h[j].clock + Seconds(lives(j))
  }

  /** Every session value the process may use. */
  ghost predicate Around(s: State, d: SessionData) {
    d in s.cookies || exists k :: k in s.cache.entries && s.cache.entries[k] == d
  }

  lemma NewlyAround(s: State, a: Action, d: SessionData)
    requires CacheOk(s.cache) && Enabled(s, a) && Around(Do(s, a), d)
    ensures Around(s, d) ||
            (Mints(s, a, d) &&
             (a.Login? || (a.Answer? && a.grant.Granted? && d.expiresAt == EpochAfter(s.clock, a.grant.expiresIn))))
    ensures CacheOk(Do(s, a).cache)
  {
    hide CacheOk, Remembered, Presented, EpochAfter, Evicted;
    if a.Answer? && a.grant.Granted? {
      RememberedKeeps(s.cache, Next(s.inFlight.value, a.grant, s.clock));
    }
  }

  lemma {:induction false} AroundIsMinted(h: seq<State>, acts: seq<Action>, lives: nat -> Option<int>, i: nat,
                                          d: SessionData)
    requires Run(h, acts) && i <= |acts| && Around(h[i], d)
    requires forall j :: 0 <= j < |acts| ==> Genuine(h[j], acts[j], lives(j))
    ensures MintedBefore(h, acts, lives, i, d)
    decreases i
  {
    if i > 0 {
      CachesOk(h, acts, i - 1);
      assert After(h, i - 1) == h[i] && Genuine(h[i - 1], acts[i - 1], lives(i - 1));
      NewlyAround(h[i - 1], acts[i - 1], d);
      if Around(h[i - 1], d) {
        AroundIsMinted(h, acts, lives, i - 1, d);
        var j :| 0 <= j < i - 1 && Mints(h[j], acts[j], d) && d.expiresAt == h[j].clock + Seconds(lives(j));
      } else {
        assert Mints(h[i - 1], acts[i - 1], d) && d.expiresAt == h[i - 1].clock + Seconds(lives(i - 1));
      }
    }
  }

  lemma {:induction false} CachesOk(h: seq<State>, acts: seq<Action>, i: nat)
    requires Run(h, acts) && i <= |acts|
    ensures CacheOk(h[i].cache)
    decreases i
  {
    if i > 0 {
      CachesOk(h, acts, i - 1);
      assert After(h, i - 1) == h[i];
      CacheStaysOk(h[i - 1], acts[i - 1]);
    }
  }

  lemma CacheStaysOk(s: State, a: Action)
    requires CacheOk(s.cache) && Enabled(s, a)
    ensures CacheOk(Do(s, a).cache)
  {
    hide CacheOk, Remembered, Presented, Evicted;
    if a.Answer? && a.grant.Granted? {
      RememberedOk(s.cache, Next(s.inFlight.value, a.grant, s.clock));
    }
  }

  /** Over every run of logins and grants with any lifetimes: a session that a request uses without
      renewing carries tokens minted at some earlier time, whose granted lifetime ends more than 45
      seconds from now. */
  lemma FreshIsValid(h: seq<State>, acts: seq<Action>, lives: nat -> Option<int>, i: nat, cookie: SessionData)
    returns (j: nat)
    requires Run(h, acts) && i <= |acts| && cookie in h[i].cookies
    requires forall j :: 0 <= j < |acts| ==> Genuine(h[j], acts[j], lives(j))
    requires SelectFresh(cookie, Lookup(h[i].cache, cookie.key), h[i].clock).Fresh?
    ensures var d := SelectFresh(cookie, Lookup(h[i].cache, cookie.key), h[i].clock).session;
            j < i && Mints(h[j], acts[j], d) && h[i].clock < h[j].clock + Seconds(lives(j)) - 45
  {
    var d := SelectFresh(cookie, Lookup(h[i].cache, cookie.key), h[i].clock).session;
    assert Around(h[i], d);
    AroundIsMinted(h, acts, lives, i, d);
    j :| 0 <= j < i && Mints(h[j], acts[j], d) && d.expiresAt == h[j].clock + Seconds(lives(j));
  }

  /** And one that is renewed has at most 45 seconds left. */
  lemma RenewedIsNearItsEnd(h: seq<State>, acts: seq<Action>, lives: nat -> Option<int>, i: nat)
    returns (j: nat)
    requires Run(h, acts) && i < |acts| && acts[i].Present?
    requires forall j :: 0 <= j < |acts| ==> Genuine(h[j], acts[j], lives(j))
    ensures Presents(h[i], acts[i].cookie)
    ensures var d := Presented(h[i], acts[i].cookie);
            j < i && Mints(h[j], acts[j], d) && h[i].clock >= h[j].clock + Seconds(lives(j)) - 45
  {
    var d := Presented(h[i], acts[i].cookie);
    assert Around(h[i], d);
    AroundIsMinted(h, acts, lives, i, d);
    j :| 0 <= j < i && Mints(h[j], acts[j], d) && d.expiresAt == h[j].clock + Seconds(lives(j));
  }
}
