/** The cache bound is sharp: a run that renews one session more than the cache holds. */
module SessionEviction {
  import opened Base
  import opened Session
  import opened SessionRenewal

  function TokenOf(i: nat, c: char): (t: string)
    ensures |t| == i + 1 && t[0] == c && t != ""
  {
    seq(i + 1, j => c)
  }

  /** The session of person number i, its login cookie and the grant that renews it. */
  function KeyOf(i: nat): (k: SessionKey)
    ensures |k.sub| == i + 1
  {
    SessionKey(TokenOf(i, 's'), "t", 0)
  }

  function CookieOf(i: nat, expiresIn: Option<int>): (d: SessionData) {
    SessionData("a", Some(TokenOf(i, 'a')), EpochAfter(0, expiresIn), KeyOf(i))
  }

  function GrantOf(i: nat, expiresIn: Option<int>): (g: Grant) {
    Granted("b", TokenOf(i, 'b'), expiresIn)
  }

  // ----- extending a run

  ghost function Latest(h: seq<State>): (s: State)
    requires h != []
  {
    h[|h| - 1]
  }

  ghost predicate GenuineRun(h: seq<State>, acts: seq<Action>, expiresIn: Option<int>) {
    Run(h, acts) && forall j :: 0 <= j < |acts| ==> Genuine(h[j], acts[j], expiresIn)
  }

  lemma Extend(h: seq<State>, acts: seq<Action>, a: Action, expiresIn: Option<int>)
    returns (g: seq<State>, bs: seq<Action>)
    requires GenuineRun(h, acts, expiresIn) && Enabled(Latest(h), a) && Genuine(Latest(h), a, expiresIn)
    ensures GenuineRun(g, bs, expiresIn) && g != [] && Latest(g) == Do(Latest(h), a)
    ensures bs == acts + [a] && g == h + [Do(Latest(h), a)]
  {
    RunLength(h, acts);
    Longer(h, acts, a);
    g, bs := h + [Do(Latest(h), a)], acts + [a];
    hide Run, Do, Genuine;
    forall i | 0 <= i < |bs| ensures Genuine(g[i], bs[i], expiresIn) {
      assert g[i] == h[i] && (i < |acts| ==> bs[i] == acts[i]);
    }
  }

  // ----- everybody logs in

  /** n people logged in, nothing renewed yet. */
  ghost predicate AllIn(s: State, n: nat, expiresIn: Option<int>) {
    && s.clock == 0 && s.inFlight == None && s.cache == Cache([], map[])
    && (forall i: nat :: i < n ==> CookieOf(i, expiresIn) in s.cookies)
    && (forall t :: t in s.issued ==> 1 <= |t| <= n && t[0] == 'a')
  }

  lemma LoginNext(s: State, n: nat, expiresIn: Option<int>)
    requires AllIn(s, n, expiresIn)
    ensures Enabled(s, Login(CookieOf(n, expiresIn)))
    ensures Genuine(s, Login(CookieOf(n, expiresIn)), expiresIn)
    ensures AllIn(Do(s, Login(CookieOf(n, expiresIn))), n + 1, expiresIn)
  {
    hide EpochAfter;
    assert TokenOf(n, 'a') !in s.issued;
  }

  lemma {:induction false} EverybodyLogsIn(n: nat, expiresIn: Option<int>) returns (h: seq<State>, acts: seq<Action>)
    ensures GenuineRun(h, acts, expiresIn) && h != [] && AllIn(Latest(h), n, expiresIn) && |acts| == n
    decreases n
  {
    if n == 0 {
      h, acts := [Nothing], [];
    } else {
      h, acts := EverybodyLogsIn(n - 1, expiresIn);
      hide GenuineRun, AllIn, Do, Enabled, Genuine;
      LoginNext(Latest(h), n - 1, expiresIn);
      h, acts := Extend(h, acts, Login(CookieOf(n - 1, expiresIn)), expiresIn);
    }
  }

  // ----- one session after the other is renewed

  /** The first moment at which the login cookies are within the leeway. */
  function Near(expiresIn: Option<int>): (now: int) {
    EpochAfter(0, expiresIn) - LEEWAY
  }

  /** Everybody is logged in, the first n sessions were renewed and none was evicted. */
  ghost predicate Filled(s: State, n: nat, expiresIn: Option<int>) {
    && s.clock == Near(expiresIn) && s.inFlight == None && CacheOk(s.cache)
    && |s.cache.order| == n && (forall i: nat :: i < n ==> s.cache.order[i] == KeyOf(i))
    && (forall i: nat :: i <= CACHE_LIMIT ==> CookieOf(i, expiresIn) in s.cookies)
    && (forall t :: t in s.issued ==> 1 <= |t| && (t[0] == 'a' || |t| <= n))
    && (n > 0 ==> TokenOf(0, 'a') in s.redeemed)
  }

  lemma TimePasses(s: State, expiresIn: Option<int>)
    requires AllIn(s, CACHE_LIMIT + 1, expiresIn) && OutlivesLeeway(expiresIn)
    ensures Near(expiresIn) >= 0 && Filled(Do(s, Tick(Near(expiresIn))), 0, expiresIn)
  {
    hide EpochAfter;
  }

  lemma PresentNext(s: State, n: nat, expiresIn: Option<int>)
    requires Filled(s, n, expiresIn) && n <= CACHE_LIMIT
    ensures Enabled(s, Present(CookieOf(n, expiresIn)))
    ensures Presented(s, CookieOf(n, expiresIn)) == CookieOf(n, expiresIn)
  {
    hide EpochAfter;
    assert KeyOf(n) !in Elements(s.cache.order);
  }

  lemma AnswerNext(s: State, n: nat, expiresIn: Option<int>)
    requires Filled(s, n, expiresIn) && Enabled(s, Present(CookieOf(n, expiresIn)))
    ensures Enabled(Do(s, Present(CookieOf(n, expiresIn))), Answer(GrantOf(n, expiresIn), true))
  {
    hide EpochAfter;
    assert TokenOf(n, 'b') !in s.issued;
  }

  /** The state after session n was renewed. */
  ghost function Renewed(s: State, n: nat, expiresIn: Option<int>): (after: State)
    requires Filled(s, n, expiresIn) && n <= CACHE_LIMIT
  {
    PresentNext(s, n, expiresIn);
    AnswerNext(s, n, expiresIn);
    Do(Do(s, Present(CookieOf(n, expiresIn))), Answer(GrantOf(n, expiresIn), true))
  }

  lemma RenewedFacts(s: State, n: nat, expiresIn: Option<int>)
    requires Filled(s, n, expiresIn) && n <= CACHE_LIMIT
    ensures var u := Renewed(s, n, expiresIn);
            && u.clock == s.clock && u.inFlight == None
            && u.cache == Remembered(s.cache, Next(CookieOf(n, expiresIn), GrantOf(n, expiresIn), s.clock))
            && (forall t :: t in u.issued ==> 1 <= |t| && (t[0] == 'a' || |t| <= n + 1))
            && s.cookies <= u.cookies && s.redeemed <= u.redeemed && TokenOf(n, 'a') in u.redeemed
  {
    hide Remembered, Evicted, EpochAfter, CacheOk;
    PresentNext(s, n, expiresIn);
    AnswerNext(s, n, expiresIn);
  }

  lemma FilledMore(s: State, n: nat, expiresIn: Option<int>)
    requires Filled(s, n, expiresIn) && n < CACHE_LIMIT
    ensures Filled(Renewed(s, n, expiresIn), n + 1, expiresIn)
  {
    RenewedFacts(s, n, expiresIn);
    var d := Next(CookieOf(n, expiresIn), GrantOf(n, expiresIn), s.clock);
    RememberedOk(s.cache, d);
    RememberedLast(s.cache, d, n);
    hide Renewed, Remembered, CacheOk, CookieOf, EpochAfter;
  }

  lemma RememberedLast(c: Cache, d: SessionData, n: nat)
    requires CacheOk(c) && |c.order| == n < CACHE_LIMIT && d.key == KeyOf(n)
    requires forall i: nat :: i < n ==> c.order[i] == KeyOf(i)
    ensures Remembered(c, d).order == c.order + [KeyOf(n)]
  {
    CacheSize(c);
    assert KeyOf(n) !in Elements(c.order);
  }

  lemma CacheSize(c: Cache)
    requires CacheOk(c)
    ensures |c.entries| == |c.order|
  {
    DistinctCount(c.order, c.entries.Keys);
    assert |c.entries| == |c.entries.Keys|;
  }

  lemma RenewSteps(h: seq<State>, acts: seq<Action>, n: nat, expiresIn: Option<int>)
    returns (g: seq<State>, bs: seq<Action>)
    requires h != [] && GenuineRun(h, acts, expiresIn) && Filled(Latest(h), n, expiresIn) && n <= CACHE_LIMIT
    ensures GenuineRun(g, bs, expiresIn) && g != [] && Latest(g) == Renewed(Latest(h), n, expiresIn)
    ensures |bs| == |acts| + 2
  {
    PresentNext(Latest(h), n, expiresIn);
    AnswerNext(Latest(h), n, expiresIn);
    hide GenuineRun, Do, Enabled, Filled, CookieOf;
    g, bs := Extend(h, acts, Present(CookieOf(n, expiresIn)), expiresIn);
    g, bs := Extend(g, bs, Answer(GrantOf(n, expiresIn), true), expiresIn);
  }

  lemma {:induction false} FillCache(n: nat, expiresIn: Option<int>) returns (h: seq<State>, acts: seq<Action>)
    requires n <= CACHE_LIMIT && OutlivesLeeway(expiresIn)
    ensures GenuineRun(h, acts, expiresIn) && h != [] && Filled(Latest(h), n, expiresIn)
    ensures |acts| == CACHE_LIMIT + 2 + 2 * n
    decreases n
  {
    hide GenuineRun, Do, Filled, AllIn;
    if n == 0 {
      h, acts := EverybodyLogsIn(CACHE_LIMIT + 1, expiresIn);
      TimePasses(Latest(h), expiresIn);
      h, acts := Extend(h, acts, Tick(Near(expiresIn)), expiresIn);
    } else {
      h, acts := FillCache(n - 1, expiresIn);
      FilledMore(Latest(h), n - 1, expiresIn);
      h, acts := RenewSteps(h, acts, n - 1, expiresIn);
    }
  }

  /** Renewing one more session pushes the first one out. */
  lemma FirstIsForgotten(s: State, expiresIn: Option<int>)
    requires Filled(s, CACHE_LIMIT, expiresIn)
    ensures var u := Renewed(s, CACHE_LIMIT, expiresIn);
            && KeyOf(0) !in u.cache.entries && u.inFlight == None && u.clock == Near(expiresIn)
            && CookieOf(0, expiresIn) in u.cookies && TokenOf(0, 'a') in u.redeemed
  {
    hide Remembered, EpochAfter;
    RenewedFacts(s, CACHE_LIMIT, expiresIn);
    RememberedKeeps(s.cache, Next(CookieOf(CACHE_LIMIT, expiresIn), GrantOf(CACHE_LIMIT, expiresIn), s.clock));
    CacheSize(s.cache);
    assert KeyOf(CACHE_LIMIT) !in Elements(s.cache.order);
    assert s.cache.order[0] == KeyOf(0);
  }

  lemma GenuineIsLongLived(h: seq<State>, acts: seq<Action>, expiresIn: Option<int>)
    requires GenuineRun(h, acts, expiresIn) && OutlivesLeeway(expiresIn)
    ensures forall j :: 0 <= j < |acts| ==> LongLived(acts[j])
  {
    assert forall j :: 0 <= j < |acts| ==> Genuine(h[j], acts[j], expiresIn);
  }

  /** For every lifetime above the leeway there is a run in which 513 people log in and, when their
      tokens come within the leeway, each renews; then the first login cookie presents its
      redeemed token again. */
  lemma EvictionReplays(expiresIn: Option<int>) returns (h: seq<State>, acts: seq<Action>)
    requires OutlivesLeeway(expiresIn)
    ensures Run(h, acts) && |acts| == 3 * 513 + 2 && acts[|acts| - 1].Present?
    ensures forall j :: 0 <= j < |acts| ==> Genuine(h[j], acts[j], expiresIn) && LongLived(acts[j])
    ensures var s, cookie := h[|acts| - 1], acts[|acts| - 1].cookie;
            Presents(s, cookie) && Presented(s, cookie) == cookie && cookie.refresh.Some? &&
            cookie.refresh.value in s.redeemed
  {
    h, acts := FillCache(CACHE_LIMIT, expiresIn);
    FirstIsForgotten(Latest(h), expiresIn);
    h, acts := RenewSteps(h, acts, CACHE_LIMIT, expiresIn);
    assert Presents(Latest(h), CookieOf(0, expiresIn));
    assert Presented(Latest(h), CookieOf(0, expiresIn)) == CookieOf(0, expiresIn);
    hide Filled, Do, Run, Genuine, LongLived;
    h, acts := Extend(h, acts, Present(CookieOf(0, expiresIn)), expiresIn);
    GenuineIsLongLived(h, acts, expiresIn);
  }
}
