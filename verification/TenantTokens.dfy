/**
 The per-tenant Copilot token cache (cpx/tenant-tokens.ts) as a protocol of atomic steps:
 what runs between two awaits is one step, and steps of concurrent requests interleave freely.
 */
module TenantTokens {

  const EARLY_REFRESH_MS := 60_000

  datatype CachedToken = CachedToken(copilotToken: string, expiresAtMs: int)

  datatype Status = Pending | Resolved(token: string, completedAtMs: int, refreshIn: int) | Rejected

  /** One upstream mint; `removed` once its deferred in-flight removal has run. */
  datatype Mint = Mint(githubToken: string, status: Status, removed: bool)

  /** What a call got: a cached token at some time, or the promise of a mint. */
  datatype Answer = FromCache(token: string, atMs: int) | Promised(mint: nat)

  datatype Call = Call(githubToken: string, answer: Answer)

  /** The two maps of the module and the clock, with the mints and calls made so far. */
  datatype State = State(cache: map<string, CachedToken>, inflight: map<string, nat>, nowMs: int,
                         mints: seq<Mint>, calls: seq<Call>)

  datatype Action =
    | Request(githubToken: string)
    | Complete(mint: nat, token: string, refreshIn: int)
    | Fail(mint: nat)
    | RemoveInflight(mint: nat)
    | Tick(nowMs: int)
    | Invalidate(githubToken: string)

  type Hash = string -> string

  const Empty := State(map[], map[], 0, [], [])

  function Ttl(refreshIn: int): nat {
    var ttl := refreshIn * 1000 - EARLY_REFRESH_MS;
    if ttl > 0 then ttl else 0
  }

  predicate HasValidToken(s: State, githubToken: string) {
    githubToken in s.cache && s.cache[githubToken].expiresAtMs > s.nowMs
  }

  function AnswerTo(hash: Hash, s: State, githubToken: string): Answer {
    if HasValidToken(s, githubToken) then FromCache(s.cache[githubToken].copilotToken, s.nowMs)
    else if hash(githubToken) in s.inflight then Promised(s.inflight[hash(githubToken)])
    else Promised(|s.mints|)
  }

  predicate StartsMint(hash: Hash, s: State, githubToken: string) {
    !HasValidToken(s, githubToken) && hash(githubToken) !in s.inflight
  }

  /** The steps that can happen: a mint settles once, and is removed once, after settling. */
  predicate Enabled(s: State, a: Action) {
    match a
    case Complete(m, _, _) => m < |s.mints| && s.mints[m].status.Pending?
    case Fail(m) => m < |s.mints| && s.mints[m].status.Pending?
    case RemoveInflight(m) => m < |s.mints| && !s.mints[m].status.Pending? && !s.mints[m].removed
    case _ => true
  }

  function Next(hash: Hash, s: State, a: Action): State
    requires Enabled(s, a)
  {
    match a
    case Request(gh) =>
      var called := s.(calls := s.calls + [Call(gh, AnswerTo(hash, s, gh))]);
      if StartsMint(hash, s, gh)
      then called.(inflight := s.inflight[hash(gh) := |s.mints|], mints := s.mints + [Mint(gh, Pending, false)])
      else called
    case Complete(m, token, refreshIn) =>
      var gh := s.mints[m].githubToken;
      s.(cache := s.cache[gh := CachedToken(token, s.nowMs + Ttl(refreshIn))],
         mints := s.mints[m := s.mints[m].(status := Resolved(token, s.nowMs, refreshIn))])
    case Fail(m) =>
      s.(mints := s.mints[m := s.mints[m].(status := Rejected)])
    case RemoveInflight(m) =>
      s.(inflight := s.inflight - {hash(s.mints[m].githubToken)}, mints := s.mints[m := s.mints[m].(removed := true)])
    case Tick(t) => s.(nowMs := t)
    case Invalidate(gh) => s.(cache := s.cache - {gh})
  }

  // ----- the module's own code -----

  /** The module: its two maps, and the mints and calls as history. */
  class TokenCache {
    const hashApiKey: Hash
    var cache: map<string, CachedToken>
    var inflight: map<string, nat>
    var nowMs: int
    var mints: seq<Mint>
    var calls: seq<Call>

    function View(): State
      reads this
    {
      State(cache, inflight, nowMs, mints, calls)
    }

    constructor (hash: Hash)
      ensures View() == Empty && hashApiKey == hash
    {
      hashApiKey := hash;
      cache, inflight, nowMs, mints, calls := map[], map[], 0, [], [];
    }

    /** `getTenantCopilotToken` up to its return; a promise stands for the mint of that number. */
    method GetTenantCopilotToken(githubToken: string) returns (answer: Answer)
      modifies this
      ensures answer == AnswerTo(hashApiKey, old(View()), githubToken)
      ensures View() == Next(hashApiKey, old(View()), Request(githubToken))
    {
      if githubToken in cache && cache[githubToken].expiresAtMs > nowMs {
        answer := FromCache(cache[githubToken].copilotToken, nowMs);
        calls := calls + [Call(githubToken, answer)];
        return;
      }
      var key := hashApiKey(githubToken);
      if key in inflight {
        answer := Promised(inflight[key]);
        calls := calls + [Call(githubToken, answer)];
        return;
      }
      answer := Promised(|mints|);
      mints := mints + [Mint(githubToken, Pending, false)];
      inflight := inflight[key := |mints| - 1];
      calls := calls + [Call(githubToken, answer)];
    }

    /** The rest of `mint` once the upstream answers. */
    method MintCompleted(m: nat, token: string, refreshIn: int)
      requires Enabled(View(), Complete(m, token, refreshIn))
      modifies this
      ensures View() == Next(hashApiKey, old(View()), Complete(m, token, refreshIn))
    {
      var ttlMs := if refreshIn * 1000 - EARLY_REFRESH_MS > 0 then refreshIn * 1000 - EARLY_REFRESH_MS else 0;
      cache := cache[mints[m].githubToken := CachedToken(token, nowMs + ttlMs)];
      mints := mints[m := mints[m].(status := Resolved(token, nowMs, refreshIn))];
    }

    method MintFailed(m: nat)
      requires Enabled(View(), Fail(m))
      modifies this
      ensures View() == Next(hashApiKey, old(View()), Fail(m))
    {
      mints := mints[m := mints[m].(status := Rejected)];
    }

    /** The `finally` callback. */
    method RemoveSettled(m: nat)
      requires Enabled(View(), RemoveInflight(m))
      modifies this
      ensures View() == Next(hashApiKey, old(View()), RemoveInflight(m))
    {
      inflight := inflight - {hashApiKey(mints[m].githubToken)};
      mints := mints[m := mints[m].(removed := true)];
    }

    method InvalidateTenantCopilotToken(githubToken: string)
      modifies this
      ensures View() == Next(hashApiKey, old(View()), Invalidate(githubToken))
    {
      cache := cache - {githubToken};
    }
  }

  // ----- the invariant -----

  ghost predicate Injective(hash: Hash) {
    forall a, b :: hash(a) == hash(b) ==> a == b
  }

  /** Some mint for `gh` delivered this token, and it is due for refresh here: a minute early, but not before its delivery. */
  ghost predicate Delivered(mints: seq<Mint>, gh: string, token: string, expiresAtMs: int) {
    exists m :: DeliveredBy(mints, m, gh, token, expiresAtMs)
  }

  predicate DeliveredBy(mints: seq<Mint>, m: int, gh: string, token: string, expiresAtMs: int) {
    && 0 <= m < |mints| && mints[m].githubToken == gh && mints[m].status.Resolved?
    && mints[m].status.token == token
    && var early := mints[m].status.refreshIn * 1000 - 60_000;
       expiresAtMs == mints[m].status.completedAtMs + (if early < 0 then 0 else early)
  }

  /** The in-flight map holds exactly the mints not yet removed, under their own keys. */
  ghost predicate InflightIsExact(hash: Hash, s: State) {
    && (forall k :: k in s.inflight ==>
          && s.inflight[k] < |s.mints| && !s.mints[s.inflight[k]].removed
          && hash(s.mints[s.inflight[k]].githubToken) == k)
    && (forall m :: 0 <= m < |s.mints| && !s.mints[m].removed ==>
          && hash(s.mints[m].githubToken) in s.inflight
          && s.inflight[hash(s.mints[m].githubToken)] == m)
    && (forall m :: 0 <= m < |s.mints| && s.mints[m].removed ==> !s.mints[m].status.Pending?)
  }

  ghost predicate CacheIsDelivered(s: State) {
    forall gh :: gh in s.cache ==> Delivered(s.mints, gh, s.cache[gh].copilotToken, s.cache[gh].expiresAtMs)
  }

  /** The answer belongs to the caller's own GitHub token, and a cached one was still valid. */
  ghost predicate AnswerIsRight(s: State, c: Call) {
    match c.answer
    case FromCache(token, atMs) => exists expires :: Delivered(s.mints, c.githubToken, token, expires) && atMs < expires
    case Promised(m) => m < |s.mints| && s.mints[m].githubToken == c.githubToken
  }

  ghost predicate Inv(hash: Hash, s: State) {
    && InflightIsExact(hash, s)
    && CacheIsDelivered(s)
    && forall i :: 0 <= i < |s.calls| ==> AnswerIsRight(s, s.calls[i])
  }

  /** Mints only grow, and a delivered token stays delivered. */
  ghost predicate Grows(a: seq<Mint>, b: seq<Mint>) {
    && |a| <= |b|
    && forall m :: 0 <= m < |a| ==>
         && a[m].githubToken == b[m].githubToken
         && (!a[m].status.Pending? ==> a[m].status == b[m].status)
  }

  lemma GrowsKeepsAnswers(s: State, t: State)
    requires Grows(s.mints, t.mints)
    ensures forall gh, token, e :: Delivered(s.mints, gh, token, e) ==> Delivered(t.mints, gh, token, e)
    ensures forall c :: AnswerIsRight(s, c) ==> AnswerIsRight(t, c)
  {
    forall gh, token, e | Delivered(s.mints, gh, token, e) ensures Delivered(t.mints, gh, token, e) {
      var m :| DeliveredBy(s.mints, m, gh, token, e);
      assert DeliveredBy(t.mints, m, gh, token, e);
    }
    forall c | AnswerIsRight(s, c) ensures AnswerIsRight(t, c) {
      if c.answer.FromCache? {
        var e :| Delivered(s.mints, c.githubToken, c.answer.token, e) && c.answer.atMs < e;
        assert Delivered(t.mints, c.githubToken, c.answer.token, e);
      }
    }
  }

  lemma NextGrows(hash: Hash, s: State, a: Action)
    requires Enabled(s, a)
    ensures Grows(s.mints, Next(hash, s, a).mints)
    ensures s.calls <= Next(hash, s, a).calls
  {
  }

  lemma RequestKeepsInflight(hash: Hash, s: State, gh: string)
    requires InflightIsExact(hash, s)
    ensures InflightIsExact(hash, Next(hash, s, Request(gh)))
  {
  }

  lemma RemovalKeepsInflight(hash: Hash, s: State, m: nat)
    requires Injective(hash) && InflightIsExact(hash, s) && Enabled(s, RemoveInflight(m))
    ensures InflightIsExact(hash, Next(hash, s, RemoveInflight(m)))
  {
  }

  lemma StepKeepsInflight(hash: Hash, s: State, a: Action)
    requires Injective(hash) && InflightIsExact(hash, s) && Enabled(s, a)
    ensures InflightIsExact(hash, Next(hash, s, a))
  {
    match a
    case Request(gh) => RequestKeepsInflight(hash, s, gh);
    case RemoveInflight(m) => RemovalKeepsInflight(hash, s, m);
    case _ =>
  }

  lemma StepKeepsCache(hash: Hash, s: State, a: Action)
    requires CacheIsDelivered(s) && Enabled(s, a)
    ensures CacheIsDelivered(Next(hash, s, a))
  {
    var t := Next(hash, s, a);
    NextGrows(hash, s, a);
    GrowsKeepsAnswers(s, t);
    if a.Complete? {
      var gh := s.mints[a.mint].githubToken;
      assert DeliveredBy(t.mints, a.mint, gh, a.token, s.nowMs + Ttl(a.refreshIn));
    }
  }

  lemma StepKeepsInvariant(hash: Hash, s: State, a: Action)
    requires Injective(hash) && Inv(hash, s) && Enabled(s, a)
    ensures Inv(hash, Next(hash, s, a))
  {
    var t := Next(hash, s, a);
    StepKeepsInflight(hash, s, a);
    StepKeepsCache(hash, s, a);
    NextGrows(hash, s, a);
    GrowsKeepsAnswers(s, t);
    if a.Request? {
      var c := Call(a.githubToken, AnswerTo(hash, s, a.githubToken));
      if HasValidToken(s, a.githubToken) {
        var e := s.cache[a.githubToken];
        assert Delivered(s.mints, a.githubToken, e.copilotToken, e.expiresAtMs);
      }
      assert AnswerIsRight(t, c);
      forall i | 0 <= i < |t.calls| ensures AnswerIsRight(t, t.calls[i]) {
        if i < |s.calls| { assert t.calls[i] == s.calls[i]; }
      }
    }
  }

  // ----- every interleaving -----

  ghost predicate ValidRun(hash: Hash, s: State, actions: seq<Action>)
    decreases |actions|
  {
    actions == [] || (Enabled(s, actions[0]) && ValidRun(hash, Next(hash, s, actions[0]), actions[1..]))
  }

  ghost function After(hash: Hash, s: State, actions: seq<Action>): State
    requires ValidRun(hash, s, actions)
    decreases |actions|
  {
    if actions == [] then s else After(hash, Next(hash, s, actions[0]), actions[1..])
  }

  lemma {:induction false} RunsKeepInvariant(hash: Hash, s: State, actions: seq<Action>)
    requires Injective(hash) && Inv(hash, s) && ValidRun(hash, s, actions)
    ensures Inv(hash, After(hash, s, actions))
    decreases |actions|
  {
    if actions != [] {
      StepKeepsInvariant(hash, s, actions[0]);
      RunsKeepInvariant(hash, Next(hash, s, actions[0]), actions[1..]);
    }
  }

  /**
   For every interleaving of steps from the empty cache: at most one mint per GitHub token
   is unsettled or still registered; every call is answered with a token, or the promise of
   one, minted for its own GitHub token; and a cached token is served only strictly before
   its mint's completion plus max(0, refresh_in * 1000 - 60000) milliseconds.
   */
  lemma EveryRunIsSafe(hash: Hash, actions: seq<Action>)
    requires Injective(hash) && ValidRun(hash, Empty, actions)
    ensures var s := After(hash, Empty, actions);
            && Inv(hash, s)
            && (forall m, n :: 0 <= m < n < |s.mints| && s.mints[m].githubToken == s.mints[n].githubToken ==>
                  s.mints[m].removed || s.mints[n].removed)
            && (forall m :: 0 <= m < |s.mints| && s.mints[m].status.Pending? ==> !s.mints[m].removed)
            && (forall i :: 0 <= i < |s.calls| ==> AnswerIsRight(s, s.calls[i]))
  {
    RunsKeepInvariant(hash, Empty, actions);
  }

  /** A settling mint removes its own in-flight entry and no other. */
  lemma RemovalIsOwn(hash: Hash, s: State, m: nat)
    requires Injective(hash) && Inv(hash, s) && Enabled(s, RemoveInflight(m))
    ensures var key := hash(s.mints[m].githubToken);
            && key in s.inflight && s.inflight[key] == m
            && Next(hash, s, RemoveInflight(m)).inflight == s.inflight - {key}
            && forall k :: k in s.inflight && s.inflight[k] != m ==>
                 k in Next(hash, s, RemoveInflight(m)).inflight && Next(hash, s, RemoveInflight(m)).inflight[k] == s.inflight[k]
  {
  }

  /** A request starts a mint exactly when no token is valid and no mint for it is still registered. */
  lemma MintStartsExactly(hash: Hash, s: State, gh: string)
    requires Injective(hash) && Inv(hash, s)
    ensures |Next(hash, s, Request(gh)).mints| > |s.mints|
            <==> !HasValidToken(s, gh) && forall m :: 0 <= m < |s.mints| && s.mints[m].githubToken == gh ==> s.mints[m].removed
  {
    if hash(gh) in s.inflight {
      var m := s.inflight[hash(gh)];
      assert s.mints[m].githubToken == gh && !s.mints[m].removed;
    }
  }

  /** A mint that failed and still stands in the in-flight map. */
  ghost predicate FailedInFlight(hash: Hash, s: State, m: nat) {
    Inv(hash, s) && m < |s.mints| && s.mints[m].status.Rejected? && !s.mints[m].removed
  }

  /** The cache holds for `gh` what it held before, or nothing. */
  predicate CacheOnlyShrinks(s: State, t: State, gh: string) {
    gh in t.cache ==> gh in s.cache && t.cache[gh] == s.cache[gh]
  }

  lemma StepKeepsFailed(hash: Hash, s: State, a: Action, m: nat)
    requires Injective(hash) && FailedInFlight(hash, s, m) && Enabled(s, a) && a != RemoveInflight(m)
    ensures var t := Next(hash, s, a);
            && FailedInFlight(hash, t, m) && t.mints[m] == s.mints[m]
            && CacheOnlyShrinks(s, t, s.mints[m].githubToken)
  {
    StepKeepsInvariant(hash, s, a);
  }

  /** A failed mint's GitHub token gets no new cache entry, and no new mint, until the mint is removed. */
  lemma {:induction false} RunKeepsFailed(hash: Hash, s: State, actions: seq<Action>, m: nat)
    requires Injective(hash) && FailedInFlight(hash, s, m) && ValidRun(hash, s, actions) && RemoveInflight(m) !in actions
    ensures var t := After(hash, s, actions);
            && FailedInFlight(hash, t, m) && t.mints[m] == s.mints[m]
            && CacheOnlyShrinks(s, t, s.mints[m].githubToken)
    decreases |actions|
  {
    if actions != [] {
      assert actions[0] in actions;
      StepKeepsFailed(hash, s, actions[0], m);
      RunKeepsFailed(hash, Next(hash, s, actions[0]), actions[1..], m);
    }
  }

  /**
   A failed mint adds nothing to the cache, whatever happens until it is removed from the
   in-flight map; once it is, the next request for its GitHub token mints again, unless a
   token cached before the failure is still valid.
   */
  lemma FailureLeavesNothing(hash: Hash, s: State, m: nat, between: seq<Action>)
    requires Injective(hash) && Inv(hash, s) && Enabled(s, Fail(m))
    requires ValidRun(hash, Next(hash, s, Fail(m)), between) && RemoveInflight(m) !in between
    ensures var failed := Next(hash, s, Fail(m));
            var gh := s.mints[m].githubToken;
            var late := After(hash, failed, between);
            && failed.cache == s.cache && Enabled(late, RemoveInflight(m))
            && var t := Next(hash, late, RemoveInflight(m));
               && t.cache == late.cache && CacheOnlyShrinks(s, t, gh)
               && Next(hash, t, Request(gh)).mints
                  == if HasValidToken(t, gh) then t.mints else t.mints + [Mint(gh, Pending, false)]
  {
    var failed := Next(hash, s, Fail(m));
    StepKeepsInvariant(hash, s, Fail(m));
    RunKeepsFailed(hash, failed, between, m);
  }

  /** Nobody is handed a mint after its removal. */
  lemma {:induction false} RemovedIsForgotten(hash: Hash, s: State, actions: seq<Action>, m: nat)
    requires Injective(hash) && Inv(hash, s) && ValidRun(hash, s, actions) && m < |s.mints| && s.mints[m].removed
    ensures var t := After(hash, s, actions);
            |s.calls| <= |t.calls| && forall i :: |s.calls| <= i < |t.calls| ==> t.calls[i].answer != Promised(m)
    decreases |actions|
  {
    if actions != [] {
      var next := Next(hash, s, actions[0]);
      StepKeepsInvariant(hash, s, actions[0]);
      RemovedIsForgotten(hash, next, actions[1..], m);
      CallsGrow(hash, next, actions[1..]);
      var t := After(hash, s, actions);
      forall i | |s.calls| <= i < |t.calls| ensures t.calls[i].answer != Promised(m) {
        if i < |next.calls| { assert t.calls[i] == next.calls[i]; }
      }
    }
  }

  /** Whether some step of the run completes a mint for `gh`. */
  ghost predicate CompletesFor(hash: Hash, s: State, actions: seq<Action>, gh: string)
    requires ValidRun(hash, s, actions)
    decreases |actions|
  {
    actions != [] &&
    (|| (actions[0].Complete? && s.mints[actions[0].mint].githubToken == gh)
     || CompletesFor(hash, Next(hash, s, actions[0]), actions[1..], gh))
  }

  predicate ServedFromCache(c: Call, gh: string) {
    c.githubToken == gh && c.answer.FromCache?
  }

  /** After an invalidation no request is served from the cache until a mint for that token completes. */
  lemma {:induction false} InvalidatedUntilMinted(hash: Hash, s: State, actions: seq<Action>, gh: string)
    requires ValidRun(hash, s, actions) && gh !in s.cache && !CompletesFor(hash, s, actions, gh)
    ensures var t := After(hash, s, actions);
            && gh !in t.cache && |s.calls| <= |t.calls|
            && forall i :: |s.calls| <= i < |t.calls| ==> !ServedFromCache(t.calls[i], gh)
    decreases |actions|
  {
    if actions != [] {
      var next := Next(hash, s, actions[0]);
      InvalidatedUntilMinted(hash, next, actions[1..], gh);
      CallsGrow(hash, next, actions[1..]);
      var t := After(hash, s, actions);
      forall i | |s.calls| <= i < |t.calls| ensures !ServedFromCache(t.calls[i], gh) {
        if i < |next.calls| { assert t.calls[i] == next.calls[i]; }
      }
    }
  }

  lemma {:induction false} CacheEntryStays(hash: Hash, s: State, actions: seq<Action>, gh: string)
    requires ValidRun(hash, s, actions) && gh in s.cache
    requires Invalidate(gh) !in actions && !CompletesFor(hash, s, actions, gh)
    ensures var t := After(hash, s, actions); gh in t.cache && t.cache[gh] == s.cache[gh]
    decreases |actions|
  {
    if actions != [] {
      assert actions[0] in actions;
      CacheEntryStays(hash, Next(hash, s, actions[0]), actions[1..], gh);
    }
  }

  /**
   A completed mint is served: after any steps that neither invalidate its GitHub token nor
   complete another mint for it, a request is answered with the minted token from the cache,
   without a new mint, if and only if less than refreshIn seconds less one minute has passed
   since the completion.
   */
  lemma CompletedMintIsServed(hash: Hash, s: State, m: nat, token: string, refreshIn: int, actions: seq<Action>)
    requires Enabled(s, Complete(m, token, refreshIn))
    requires ValidRun(hash, Next(hash, s, Complete(m, token, refreshIn)), actions)
    requires Invalidate(s.mints[m].githubToken) !in actions
    requires !CompletesFor(hash, Next(hash, s, Complete(m, token, refreshIn)), actions, s.mints[m].githubToken)
    ensures var gh := s.mints[m].githubToken;
            var t := After(hash, Next(hash, s, Complete(m, token, refreshIn)), actions);
            var u := Next(hash, t, Request(gh));
            var early := refreshIn * 1000 - 60_000;
            && |u.calls| == |t.calls| + 1 && u.calls[|t.calls|].githubToken == gh
            && (u.calls[|t.calls|].answer == FromCache(token, t.nowMs) && u.mints == t.mints && u.cache == t.cache
                <==> t.nowMs < s.nowMs + (if early < 0 then 0 else early))
            && (t.nowMs >= s.nowMs + (if early < 0 then 0 else early) ==> u.calls[|t.calls|].answer.Promised?)
  {
    CacheEntryStays(hash, Next(hash, s, Complete(m, token, refreshIn)), actions, s.mints[m].githubToken);
  }

  lemma {:induction false} CallsGrow(hash: Hash, s: State, actions: seq<Action>)
    requires ValidRun(hash, s, actions)
    ensures s.calls <= After(hash, s, actions).calls
    decreases |actions|
  {
    if actions != [] {
      NextGrows(hash, s, actions[0]);
      CallsGrow(hash, Next(hash, s, actions[0]), actions[1..]);
    }
  }
}
