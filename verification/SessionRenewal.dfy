/** No redeemed refresh token is presented again, over every interleaving of requests. */
module SessionRenewal {
  import opened Base
  import opened Session

  /** cookies are all session values a browser may still send; issued says which session each
      refresh token was minted for. The rest records what happened: redeemed holds the tokens
      whose grant came back, spent those the provider consumed, and renewed and evicted the
      sessions that entered and left the cache. */
  datatype State = State(
    clock: int, cache: Cache, cookies: set<SessionData>, issued: map<string, SessionData>,
    redeemed: set<string>, spent: set<string>, evicted: set<SessionKey>, renewed: set<SessionKey>,
    inFlight: Option<SessionData>)

  datatype Action =
    | Tick(seconds: nat)
    | Login(session: SessionData)
    | Present(cookie: SessionData)
    | Answer(grant: Grant, written: bool)
    | Adopt(key: SessionKey)

  /** A rotating provider: it only mints tokens it never minted before. */
  ghost predicate Minted(s: State, token: string) {
    token in s.issued
  }

  /** A request presents a token when its turn in the queue has come and its cookie, against the
      cache, calls for renewal. */
  predicate Presents(s: State, cookie: SessionData) {
    SelectFresh(cookie, Lookup(s.cache, cookie.key), s.clock).Renew?
  }

  function Presented(s: State, cookie: SessionData): (current: SessionData)
    requires Presents(s, cookie)
  {
    SelectFresh(cookie, Lookup(s.cache, cookie.key), s.clock).current
  }

  ghost predicate Enabled(s: State, a: Action) {
    match a
    case Tick(_) => true
    case Login(session) => session.refresh.Some? ==> session.refresh.value != "" && !Minted(s, session.refresh.value)
    case Present(cookie) => cookie in s.cookies && s.inFlight.None? && Presents(s, cookie)
    case Answer(g, _) => s.inFlight.Some? && (g.Granted? ==> g.refresh != "" && !Minted(s, g.refresh))
    case Adopt(k) => k in s.cache.entries
  }

  function Token(d: SessionData): (t: set<string>) {
    if d.refresh.Some? then {d.refresh.value} else {}
  }

  ghost function Do(s: State, a: Action): (after: State)
    requires Enabled(s, a)
  {
    match a
    case Tick(seconds) => s.(clock := s.clock + seconds)
    case Login(session) =>
      s.(cookies := s.cookies + {session},
         issued := if session.refresh.Some? then s.issued[session.refresh.value := session] else s.issued)
    case Present(cookie) => s.(inFlight := Some(Presented(s, cookie)))
    case Answer(g, written) =>
      var current := s.inFlight.value;
      if g.Denied? then s.(inFlight := None)
      else if g.Lost? then s.(inFlight := None, spent := s.spent + Token(current))
      else
        var next := Next(current, g, s.clock);
        var e := Evicted(s.cache, next.key);
        s.(inFlight := None, cache := Remembered(s.cache, next), issued := s.issued[g.refresh := next],
           cookies := if written then s.cookies + {next} else s.cookies,
           redeemed := s.redeemed + Token(current), spent := s.spent + Token(current),
           evicted := if e.Some? then s.evicted + {e.value} else s.evicted,
           renewed := s.renewed + {next.key})
    case Adopt(k) => s.(cookies := s.cookies + {s.cache.entries[k]})
  }

  /** A token granted for so long outlives the leeway; without a lifetime it gets five minutes. */
  predicate OutlivesLeeway(expiresIn: Option<int>) {
    expiresIn.None? || expiresIn.value > 45
  }

  /** Every token the provider grants lives longer than the leeway. */
  ghost predicate LongLived(a: Action) {
    a.Answer? && a.grant.Granted? ==> OutlivesLeeway(a.grant.expiresIn)
  }

  ghost predicate Run(h: seq<State>, acts: seq<Action>) {
    && |h| == |acts| + 1
    && h[0].cache == Cache([], map[]) && h[0].cookies == {} && h[0].issued == map[]
    && h[0].redeemed == {} && h[0].spent == {} && h[0].evicted == {} && h[0].renewed == {} && h[0].inFlight == None
    && forall i :: 0 <= i < |acts| ==> Enabled(h[i], acts[i]) && After(h, i) == Do(h[i], acts[i])
  }

  ghost function After(h: seq<State>, i: nat): (s: State)
    requires i + 1 < |h|
  {
    h[i + 1]
  }

  // ----- the invariant

  /** A session value agrees with what its refresh token was minted for. */
  ghost predicate Issued(issued: map<string, SessionData>, d: SessionData) {
    d.refresh.Some? && d.refresh.value != "" ==> d.refresh.value in issued && issued[d.refresh.value] == d
  }

  /** A redeemed token belongs to a session within the leeway, and whatever the cache holds for
      that session is later. The cache holds something unless the entry was evicted. */
  ghost predicate Superseded(s: State, token: string)
    requires token in s.issued
  {
    var d := s.issued[token];
    && d.expiresAt <= s.clock + LEEWAY
    && (d.key in s.cache.entries ==> s.cache.entries[d.key].expiresAt > d.expiresAt)
    && (d.key in s.cache.entries || d.key in s.evicted)
  }

  /** Every session value around is one that was issued. */
  ghost predicate SessionsOk(issued: map<string, SessionData>, cookies: set<SessionData>,
                             entries: map<SessionKey, SessionData>)
  {
    && (forall d :: d in cookies ==> Issued(issued, d))
    && (forall k :: k in entries ==> Issued(issued, entries[k]))
    && (forall t :: t in issued ==> issued[t].refresh == Some(t))
  }

  ghost predicate Inv(s: State) {
    && CacheOk(s.cache)
    && SessionsOk(s.issued, s.cookies, s.cache.entries)
    && (forall t :: t in s.redeemed ==> t in s.issued && Superseded(s, t))
    && (s.inFlight.Some? ==> InFlightOk(s, s.inFlight.value))
    && s.cache.entries.Keys <= s.renewed
  }

  /** The session being renewed is issued, within the leeway, and at least as late as the cache. */
  ghost predicate InFlightOk(s: State, d: SessionData) {
    && Issued(s.issued, d) && d.refresh.Some? && d.refresh.value != ""
    && d.expiresAt <= s.clock + LEEWAY
    && (d.key in s.cache.entries ==> s.cache.entries[d.key].expiresAt <= d.expiresAt)
  }

  lemma PresentKeeps(s: State, cookie: SessionData)
    requires Inv(s) && Enabled(s, Present(cookie))
    ensures Inv(Do(s, Present(cookie)))
  {
  }

  /** A request presents a redeemed token exactly when the cache has nothing for its session and
      its own cookie carries one. */
  lemma ReplaysIff(s: State, cookie: SessionData)
    requires Inv(s) && Enabled(s, Present(cookie))
    ensures Presented(s, cookie).refresh.Some?
    ensures Presented(s, cookie).refresh.value in s.redeemed <==>
              cookie.key !in s.cache.entries && cookie.refresh.Some? && cookie.refresh.value in s.redeemed
  {
    var d := Presented(s, cookie);
    assert Issued(s.issued, d);
    if d.refresh.value in s.redeemed {
      assert Superseded(s, d.refresh.value);
    }
  }

  lemma AnswerKeeps(s: State, g: Grant, written: bool)
    requires Inv(s) && Enabled(s, Answer(g, written)) && LongLived(Answer(g, written))
    ensures Inv(Do(s, Answer(g, written)))
  {
    hide CacheOk, Remembered, Evicted, SessionsOk;
    if g.Granted? {
      hide Superseded;
      var after := Do(s, Answer(g, written));
      RememberedKeeps(s.cache, Next(s.inFlight.value, g, s.clock));
      AnswerSessions(s, g, written);
      forall t | t in after.redeemed ensures t in after.issued && Superseded(after, t) {
        AnswerSupersedes(s, g, written, t);
      }
    }
  }

  lemma AnswerSessions(s: State, g: Grant, written: bool)
    requires Inv(s) && Enabled(s, Answer(g, written)) && g.Granted?
    ensures var after := Do(s, Answer(g, written)); SessionsOk(after.issued, after.cookies, after.cache.entries)
  {
    hide CacheOk, Remembered, Evicted, Superseded;
    var next := Next(s.inFlight.value, g, s.clock);
    RememberedKeeps(s.cache, next);
    IssuedStays(s.issued, g.refresh, next);
  }

  lemma IssuedStays(issued: map<string, SessionData>, token: string, d: SessionData)
    requires token !in issued
    ensures forall x :: Issued(issued, x) ==> Issued(issued[token := d], x)
  {
  }

  lemma AnswerSupersedes(s: State, g: Grant, written: bool, t: string)
    requires Inv(s) && Enabled(s, Answer(g, written)) && LongLived(Answer(g, written)) && g.Granted?
    requires t in Do(s, Answer(g, written)).redeemed
    ensures t in Do(s, Answer(g, written)).issued && Superseded(Do(s, Answer(g, written)), t)
  {
    hide CacheOk, Remembered, Evicted;
    var current := s.inFlight.value;
    var next := Next(current, g, s.clock);
    RememberedKeeps(s.cache, next);
    assert next.expiresAt > current.expiresAt && next.key == current.key;
    if t in s.redeemed {
      assert Superseded(s, t);
    }
  }

  lemma OtherKeeps(s: State, a: Action)
    requires Inv(s) && Enabled(s, a) && (a.Tick? || a.Login? || a.Adopt?)
    ensures Inv(Do(s, a))
  {
    hide CacheOk;
    if a.Login? && a.session.refresh.Some? {
      IssuedStays(s.issued, a.session.refresh.value, a.session);
    }
    forall t | t in s.redeemed ensures t in Do(s, a).issued && Superseded(Do(s, a), t) {
      assert Superseded(s, t);
    }
  }

  lemma DoKeeps(s: State, a: Action)
    requires Inv(s) && Enabled(s, a) && LongLived(a)
    ensures Inv(Do(s, a))
  {
    match a {
      case Present(cookie) => PresentKeeps(s, cookie);
      case Answer(g, written) => AnswerKeeps(s, g, written);
      case _ => OtherKeeps(s, a);
    }
  }

  lemma {:induction false} ReachableInv(h: seq<State>, acts: seq<Action>, i: nat)
    requires Run(h, acts) && i < |h| && forall j :: 0 <= j < |acts| ==> LongLived(acts[j])
    ensures Inv(h[i])
    decreases i
  {
    if i > 0 {
      ReachableInv(h, acts, i - 1);
      hide Inv, Do, Enabled;
      DoKeeps(h[i - 1], acts[i - 1]);
      assert After(h, i - 1) == h[i];
    }
  }

  // ----- results

  /** With a rotating provider and lifetimes above the leeway, over every interleaving: the token
      a request presents was redeemed before exactly when the cache has no entry for its session
      and its frozen cookie carries a redeemed token. */
  lemma ReplayIffUncached(h: seq<State>, acts: seq<Action>, i: nat)
    requires Run(h, acts) && i < |acts| && acts[i].Present? && forall j :: 0 <= j < |acts| ==> LongLived(acts[j])
    ensures Presents(h[i], acts[i].cookie) && Presented(h[i], acts[i].cookie).refresh.Some?
    ensures Presented(h[i], acts[i].cookie).refresh.value in h[i].redeemed <==>
              && acts[i].cookie.key !in h[i].cache.entries
              && acts[i].cookie.refresh.Some? && acts[i].cookie.refresh.value in h[i].redeemed
  {
    ReachableInv(h, acts, i);
    ReplaysIff(h[i], acts[i].cookie);
  }

  /** So no redeemed token is presented again while at most 512 sessions were ever renewed. */
  lemma NoTokenIsReplayed(h: seq<State>, acts: seq<Action>, i: nat)
    requires Run(h, acts) && i < |acts| && acts[i].Present? && forall j :: 0 <= j < |acts| ==> LongLived(acts[j])
    requires |h[i].renewed| <= 512
    ensures Presents(h[i], acts[i].cookie) && Presented(h[i], acts[i].cookie).refresh.Some?
    ensures Presented(h[i], acts[i].cookie).refresh.value !in h[i].redeemed
  {
    ReachableInv(h, acts, i);
    NothingEvictedWithinLimit(h, acts, i);
    ReplaysIff(h[i], acts[i].cookie);
    var cookie := acts[i].cookie;
    assert Issued(h[i].issued, cookie);
    assert cookie.refresh.Some? && cookie.refresh.value in h[i].redeemed ==> Superseded(h[i], cookie.refresh.value);
  }

  /** Nothing is evicted while at most 512 sessions were ever renewed. */
  lemma {:induction false} NothingEvictedWithinLimit(h: seq<State>, acts: seq<Action>, i: nat)
    requires Run(h, acts) && i < |h| && forall j :: 0 <= j < |acts| ==> LongLived(acts[j])
    requires |h[i].renewed| <= 512
    ensures h[i].evicted == {}
    decreases i
  {
    if i > 0 {
      ReachableInv(h, acts, i - 1);
      assert After(h, i - 1) == h[i];
      hide Run, Inv, Do, Enabled;
      StepWithinLimit(h[i - 1], acts[i - 1]);
      NothingEvictedWithinLimit(h, acts, i - 1);
    }
  }

  lemma StepWithinLimit(s: State, a: Action)
    requires Inv(s) && Enabled(s, a) && |Do(s, a).renewed| <= CACHE_LIMIT
    ensures |s.renewed| <= CACHE_LIMIT && Do(s, a).evicted == s.evicted
  {
    hide CacheOk, SessionsOk, InFlightOk, Remembered, Issued, Superseded, Presented, Evicted, Next;
    RenewedGrows(s, a);
    if a.Answer? && a.grant.Granted? {
      hide Do, Enabled;
      AnswerWithinLimit(s, a);
    }
  }

  lemma AnswerWithinLimit(s: State, a: Action)
    requires Enabled(s, a) && a.Answer? && a.grant.Granted?
    requires s.cache.entries.Keys <= s.renewed && |Do(s, a).renewed| <= CACHE_LIMIT
    ensures Do(s, a).evicted == s.evicted
  {
    hide Remembered, Presented, Evicted, Next;
    NoneEvicted(s.cache, Do(s, a).renewed, Next(s.inFlight.value, a.grant, s.clock).key);
  }

  lemma NoneEvicted(c: Cache, renewed: set<SessionKey>, k: SessionKey)
    requires c.entries.Keys + {k} <= renewed && |renewed| <= CACHE_LIMIT
    ensures Evicted(c, k).None?
  {
    if k !in c.entries {
      RoomLeft(c.entries.Keys, renewed, k);
      assert |c.entries| == |c.entries.Keys|;
    }
  }

  lemma RenewedGrows(s: State, a: Action)
    requires Enabled(s, a)
    ensures s.renewed <= Do(s, a).renewed && |s.renewed| <= |Do(s, a).renewed|
  {
    SubsetSize(s.renewed, Do(s, a).renewed);
  }

  lemma SubsetSize(a: set<SessionKey>, b: set<SessionKey>)
    requires a <= b
    ensures |a| <= |b|
  {
    assert b == a + (b - a);
  }

  lemma RoomLeft(keys: set<SessionKey>, renewed: set<SessionKey>, k: SessionKey)
    requires keys + {k} <= renewed && k !in keys && |renewed| <= CACHE_LIMIT
    ensures |keys| < CACHE_LIMIT
  {
    SubsetSize(keys + {k}, renewed);
  }

  // ----- the leeway is the exact bound

  /** A renewal always moves the expiry forward exactly when lifetimes exceed the leeway. */
  lemma ForwardIffAboveLeeway(now: int, expiresIn: Option<int>)
    ensures (forall current: SessionData :: current.expiresAt <= now + 45 ==>
             EpochAfter(now, expiresIn) > current.expiresAt)
            <==> OutlivesLeeway(expiresIn)
  {
    var edge := SessionData("", None, now + LEEWAY, SessionKey("", "", 0));
    assert edge.expiresAt <= now + 45;
  }

  /** Letters, digits and underscores, and after the first also dots and dashes, at most 63. */
  predicate ValidTenant(t: string) {
    && 1 <= |t| <= 63 && WordChar(t[0])
    && forall i :: 0 <= i < |t| ==> WordChar(t[i]) || t[i] == '.' || t[i] == '-'
  }

  predicate WordChar(c: char) {
    'a' <= c <= 'z' || 'A' <= c <= 'Z' || '0' <= c <= '9' || c == '_'
  }

  /** The seconds a token lives: what was granted, at least one, or five minutes. */
  function Seconds(expiresIn: Option<int>): (n: int) {
    if expiresIn.None? then 300 else if expiresIn.value < 1 then 1 else expiresIn.value
  }

  /** What the process does with a provider whose tokens live for expiresIn: a login builds its
      session at that moment, and access tokens are not empty. */
  ghost predicate Genuine(s: State, a: Action, expiresIn: Option<int>) {
    match a
    case Login(d) =>
      && d.access != "" && ValidTenant(d.key.tenant) && d.key.createdAt == s.clock
      && d.expiresAt == s.clock + Seconds(expiresIn)
    case Answer(g, _) => g.Granted? ==> g.access != "" && g.expiresIn == expiresIn
    case _ => true
  }

  /** The process after a login, and after its session was renewed to d. */
  ghost function LoggedIn(c: SessionData, r0: string, flight: Option<SessionData>): (s: State) {
    State(0, Cache([], map[]), {c}, map[r0 := c], {}, {}, {}, {}, flight)
  }

  ghost function Answered(c: SessionData, d: SessionData, r0: string, r1: string,
                          flight: Option<SessionData>): (s: State)
  {
    State(0, Cache([c.key], map[c.key := d]), {c, d}, map[r0 := c, r1 := d], {r0}, {r0}, {}, {c.key}, flight)
  }

  const Nothing := State(0, Cache([], map[]), {}, map[], {}, {}, {}, {}, None)

  lemma ReplayStart(c: SessionData, r0: string)
    requires r0 != "" && c.refresh == Some(r0) && c.expiresAt <= LEEWAY
    ensures Enabled(Nothing, Login(c)) && Do(Nothing, Login(c)) == LoggedIn(c, r0, None)
    ensures Enabled(LoggedIn(c, r0, None), Present(c)) &&
            Do(LoggedIn(c, r0, None), Present(c)) == LoggedIn(c, r0, Some(c))
  {
    assert Presents(LoggedIn(c, r0, None), c) && Presented(LoggedIn(c, r0, None), c) == c;
  }

  lemma ReplayAnswer(c: SessionData, d: SessionData, r0: string, r1: string, g: Grant)
    requires r0 != r1 && r1 != "" && c.refresh == Some(r0) && g.Granted? && g.refresh == r1 && d == Next(c, g, 0)
    ensures Enabled(LoggedIn(c, r0, Some(c)), Answer(g, true))
    ensures Do(LoggedIn(c, r0, Some(c)), Answer(g, true)) == Answered(c, d, r0, r1, None)
  {
    FirstRemembered(d);
    hide Remembered, Evicted;
    assert {} + {r0} == {r0} && {c} + {d} == {c, d};
  }

  lemma FirstRemembered(d: SessionData)
    ensures Remembered(Cache([], map[]), d) == Cache([d.key], map[d.key := d])
    ensures Evicted(Cache([], map[]), d.key) == None
  {
  }

  lemma ReplayAgain(c: SessionData, d: SessionData, r0: string, r1: string)
    requires r0 != "" && c.refresh == Some(r0) && d.expiresAt <= c.expiresAt <= LEEWAY && d.key == c.key
    ensures Presents(Answered(c, d, r0, r1, None), c) && Presented(Answered(c, d, r0, r1, None), c) == c
    ensures Enabled(Answered(c, d, r0, r1, None), Present(c))
    ensures Do(Answered(c, d, r0, r1, None), Present(c)) == Answered(c, d, r0, r1, Some(c))
  {
  }

  lemma FourSteps(s1: State, s2: State, s3: State, s4: State, a0: Action, a1: Action, a2: Action, a3: Action)
    requires Enabled(Nothing, a0) && s1 == Do(Nothing, a0) && Enabled(s1, a1) && s2 == Do(s1, a1)
    requires Enabled(s2, a2) && s3 == Do(s2, a2) && Enabled(s3, a3) && s4 == Do(s3, a3)
    ensures Run([Nothing, s1, s2, s3, s4], [a0, a1, a2, a3])
  {
    hide Do, Enabled;
    var h, acts := [Nothing, s1, s2, s3, s4], [a0, a1, a2, a3];
    assert forall i :: 0 <= i < |acts| ==> Enabled(h[i], acts[i]) && After(h, i) == Do(h[i], acts[i]);
  }

  /** For every lifetime within the leeway some run, evicting nothing, presents a redeemed token
      again: two requests hold the login cookie, the first renews, the second is not sent to
      the cache because the renewed token expires no later. */
  lemma ShortLifetimesReplay(expiresIn: Option<int>, sub: string, tenant: string, access: string,
                             r0: string, r1: string)
    returns (h: seq<State>, acts: seq<Action>)
    requires !OutlivesLeeway(expiresIn) && r0 != r1 && r0 != "" && r1 != ""
    requires ValidTenant(tenant) && access != ""
    ensures Run(h, acts) && |acts| == 4 && acts[3].Present? && h[3].evicted == {}
    ensures forall j :: 0 <= j < |acts| ==> Genuine(h[j], acts[j], expiresIn)
    ensures Presents(h[3], acts[3].cookie) && Presented(h[3], acts[3].cookie).refresh.Some?
    ensures Presented(h[3], acts[3].cookie).refresh.value in h[3].redeemed
  {
    var c := SessionData(access, Some(r0), EpochAfter(0, expiresIn), SessionKey(sub, tenant, 0));
    var g := Granted(access, r1, expiresIn);
    var d := Next(c, g, 0);
    ReplayStart(c, r0);
    ReplayAnswer(c, d, r0, r1, g);
    ReplayAgain(c, d, r0, r1);
    hide Run, Do, Enabled, Presents, Presented, ValidTenant;
    acts := [Login(c), Present(c), Answer(g, true), Present(c)];
    h := [Nothing, LoggedIn(c, r0, None), LoggedIn(c, r0, Some(c)), Answered(c, d, r0, r1, None),
          Answered(c, d, r0, r1, Some(c))];
    FourSteps(h[1], h[2], h[3], h[4], acts[0], acts[1], acts[2], acts[3]);
  }

  lemma Longer(h: seq<State>, acts: seq<Action>, a: Action)
    requires Run(h, acts) && Enabled(h[|acts|], a)
    ensures Run(h + [Do(h[|acts|], a)], acts + [a])
  {
    hide Do, Enabled;
    var g, bs := h + [Do(h[|acts|], a)], acts + [a];
    forall i | 0 <= i < |bs| ensures Enabled(g[i], bs[i]) && After(g, i) == Do(g[i], bs[i]) {
      assert g[i] == h[i];
      if i < |acts| {
        assert bs[i] == acts[i] && After(g, i) == After(h, i);
      }
    }
  }

  lemma LostStep(s: State, cookie: SessionData, written: bool)
    requires Enabled(s, Present(cookie))
    ensures Presented(s, cookie).refresh.Some?
    ensures var t := Do(s, Present(cookie));
            && Enabled(t, Answer(Lost, written))
            && var u := Do(t, Answer(Lost, written));
               && Enabled(u, Present(cookie)) && Presented(u, cookie) == Presented(s, cookie)
               && Presented(s, cookie).refresh.value in u.spent && u.redeemed == s.redeemed
  {
  }

  /** A lost answer is beyond the process: every run in which a request can present its token goes on
      with that presentation, the loss of its answer, and the same cookie presenting the same token
      again at once, although the provider has spent it. */
  lemma LostAnswersReplay(h: seq<State>, acts: seq<Action>, cookie: SessionData, written: bool)
    returns (g: seq<State>, bs: seq<Action>)
    requires Run(h, acts) && Enabled(h[|acts|], Present(cookie))
    ensures Run(g, bs) && h <= g && bs == acts + [Present(cookie), Answer(Lost, written), Present(cookie)]
    ensures var s, u := g[|acts|], g[|acts| + 2];
            && Presents(s, cookie) && Presents(u, cookie) && Presented(u, cookie) == Presented(s, cookie)
            && Presented(u, cookie).refresh.Some? && Presented(u, cookie).refresh.value in u.spent
            && u.redeemed == s.redeemed
  {
    var s := h[|acts|];
    LostStep(s, cookie, written);
    hide Run, Do, Presents, Presented;
    var t := Do(s, Present(cookie));
    var u := Do(t, Answer(Lost, written));
    RunLength(h, acts);
    Longer(h, acts, Present(cookie));
    Longer(h + [t], acts + [Present(cookie)], Answer(Lost, written));
    Longer(h + [t] + [u], acts + [Present(cookie)] + [Answer(Lost, written)], Present(cookie));
    g := h + [t] + [u] + [Do(u, Present(cookie))];
    bs := acts + [Present(cookie)] + [Answer(Lost, written)] + [Present(cookie)];
    assert bs == acts + [Present(cookie), Answer(Lost, written), Present(cookie)];
  }

  lemma RunLength(h: seq<State>, acts: seq<Action>)
    requires Run(h, acts)
    ensures |h| == |acts| + 1
  {
  }

  /** The answer to an earlier presentation of the token was lost. */
  ghost predicate LostBefore(h: seq<State>, acts: seq<Action>, i: nat, token: string)
    requires |h| == |acts| + 1 && i <= |acts|
  {
    exists j :: 0 <= j < i && LosesToken(h[j], acts[j], token)
  }

  ghost predicate LosesToken(s: State, a: Action, token: string) {
    a.Answer? && a.grant.Lost? && s.inFlight.Some? && token in Token(s.inFlight.value)
  }

  ghost predicate RedeemsToken(s: State, a: Action, token: string) {
    a.Answer? && a.grant.Granted? && s.inFlight.Some? && token in Token(s.inFlight.value)
  }

  lemma SpendsOne(s: State, a: Action, token: string)
    requires Enabled(s, a)
    ensures token in Do(s, a).redeemed <==> token in s.redeemed || RedeemsToken(s, a, token)
    ensures token in Do(s, a).spent <==>
              token in s.spent || RedeemsToken(s, a, token) || LosesToken(s, a, token)
  {
    hide Remembered, Evicted, Next, Presented;
  }

  /** The provider has spent a token exactly when its grant came back or an answer to it was lost. */
  lemma {:induction false} SpentIsRedeemedOrLost(h: seq<State>, acts: seq<Action>, i: nat, token: string)
    requires Run(h, acts) && i <= |acts|
    ensures token in h[i].spent <==> token in h[i].redeemed || LostBefore(h, acts, i, token)
    decreases i
  {
    if i > 0 {
      SpentIsRedeemedOrLost(h, acts, i - 1, token);
      assert After(h, i - 1) == h[i];
      SpendsOne(h[i - 1], acts[i - 1], token);
      if LostBefore(h, acts, i, token) {
        var j :| 0 <= j < i && LosesToken(h[j], acts[j], token);
        assert j < i - 1 ==> LostBefore(h, acts, i - 1, token);
      }
    }
  }

  /** Over every interleaving with lifetimes above the leeway: the provider has already spent the
      token a request presents exactly when an answer to it was lost before, or the cache has no
      entry for the session and its frozen cookie carries a redeemed token. */
  lemma SpentIffLostOrUncached(h: seq<State>, acts: seq<Action>, i: nat)
    requires Run(h, acts) && i < |acts| && acts[i].Present? && forall j :: 0 <= j < |acts| ==> LongLived(acts[j])
    ensures Presents(h[i], acts[i].cookie) && Presented(h[i], acts[i].cookie).refresh.Some?
    ensures var cookie := acts[i].cookie;
            var token := Presented(h[i], cookie).refresh.value;
            token in h[i].spent <==>
              || LostBefore(h, acts, i, token)
              || (cookie.key !in h[i].cache.entries && cookie.refresh.Some? && cookie.refresh.value in h[i].redeemed)
  {
    ReplayIffUncached(h, acts, i);
    hide Run;
    SpentIsRedeemedOrLost(h, acts, i, Presented(h[i], acts[i].cookie).refresh.value);
  }
}
