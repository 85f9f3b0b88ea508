/** `POST /api/album-crate/batch`: assigns many saved albums to a crate (or
    clears their crate) in one update, behind a per-user sliding-window rate
    limit kept in a process-wide map. */
module BatchRoute {
  import opened Wrappers
  import opened Seqs
  import opened JsonValue
  import opened Requests

  /** At most `BatchLimit` batch updates per user in any `BatchWindowMs`. */
  const BatchLimit: nat := 10
  const BatchWindowMs: int := 60000
  const RateLimitedMessage: string := "Rate limit exceeded. Try again shortly."
  const DevUserInProductionMessage: string := "DEV_SPOTIFY_USER_ID must not be set in production"

  // ---------------------------------------------------------------------
  // The rate limiter

  /** The timestamps the limiter keeps per key, oldest first. */
  type Store = map<string, seq<int>>

  /** `rlStore.get(userKey) || []`. */
  function Lookup(store: Store, userKey: string): seq<int> {
    if userKey in store then store[userKey] else []
  }

  function After(cutoff: int): int -> bool {
    t => t > cutoff
  }

  /** `arr.filter((t) => t > cutoff)`. */
  function Recent(arr: seq<int>, cutoff: int): (r: seq<int>)
    ensures |r| <= |arr| && IsSubsequence(r, arr)
    ensures forall i :: 0 <= i < |r| ==> r[i] > cutoff
    ensures forall i :: 0 <= i < |arr| && arr[i] > cutoff ==> arr[i] in r
    ensures forall t :: multiset(r)[t] == if t > cutoff then multiset(arr)[t] else 0
  {
    FilterMultiset(arr, After(cutoff));
    Filter(arr, After(cutoff))
  }

  /** The outcome of one `rateLimit` call: the new store and the verdict. */
  datatype Verdict = Verdict(store: Store, accepted: bool)

  /** One call at time `now`: the key's timestamps older than the window are
      dropped; the call is accepted, and `now` recorded, exactly when fewer
      than `limit` remain. No other key changes. */
  function Step(store: Store, userKey: string, limit: nat, windowMs: int, now: int): (v: Verdict)
    ensures v.accepted <==> |Recent(Lookup(store, userKey), now - windowMs)| < limit
    ensures userKey in v.store
    ensures v.accepted ==> v.store[userKey] == Recent(Lookup(store, userKey), now - windowMs) + [now]
    ensures !v.accepted ==> v.store[userKey] == Recent(Lookup(store, userKey), now - windowMs)
    ensures forall k :: k != userKey ==> (k in v.store <==> k in store) && (k in store ==> v.store[k] == store[k])
  {
    var recent := Recent(Lookup(store, userKey), now - windowMs);
    if |recent| >= limit then Verdict(store[userKey := recent], false)
    else Verdict(store[userKey := recent + [now]], true)
  }

  /** The verdicts of calls for one key at the given times. */
  function Verdicts(store: Store, userKey: string, limit: nat, windowMs: int, times: seq<int>): seq<bool>
    decreases |times|
  {
    if times == [] then []
    else
      var v := Step(store, userKey, limit, windowMs, times[0]);
      [v.accepted] + Verdicts(v.store, userKey, limit, windowMs, times[1..])
  }

  /** Every key holds at most `limit` timestamps. */
  predicate Bounded(store: Store, limit: nat) {
    forall k :: k in store ==> |store[k]| <= limit
  }

  /** With one limit for a key, the store never holds more than `limit`
      timestamps for any key. */
  lemma StepKeepsBounded(store: Store, userKey: string, limit: nat, windowMs: int, now: int)
    requires Bounded(store, limit)
    ensures Bounded(Step(store, userKey, limit, windowMs, now).store, limit)
  {
    var v := Step(store, userKey, limit, windowMs, now);
    assert |Recent(Lookup(store, userKey), now - windowMs)| <= |Lookup(store, userKey)|;
  }

  predicate NonDecreasing(times: seq<int>) {
    forall i, j :: 0 <= i < j < |times| ==> times[i] <= times[j]
  }

  /** A burst of calls no older than the window at the time of the last one:
      the first calls are accepted until the key holds `limit` timestamps,
      and every later one is refused. */
  lemma {:induction false} BurstVerdicts(store: Store, userKey: string, limit: nat, windowMs: int, times: seq<int>)
    requires |Lookup(store, userKey)| <= limit
    requires times != [] && NonDecreasing(times)
    requires forall i :: 0 <= i < |Lookup(store, userKey)| ==> Lookup(store, userKey)[i] > times[|times| - 1] - windowMs
    requires forall i :: 0 <= i < |times| ==> times[i] > times[|times| - 1] - windowMs
    ensures var vs := Verdicts(store, userKey, limit, windowMs, times);
      |vs| == |times| && forall i :: 0 <= i < |times| ==> (vs[i] <==> |Lookup(store, userKey)| + i < limit)
    decreases |times|
  {
    var stored := Lookup(store, userKey);
    BurstFirst(store, userKey, limit, windowMs, times);
    var v := Step(store, userKey, limit, windowMs, times[0]);
    if |times| > 1 {
      var rest := times[1..];
      BurstRest(store, userKey, limit, windowMs, times);
      BurstVerdicts(v.store, userKey, limit, windowMs, rest);
      var vs' := Verdicts(v.store, userKey, limit, windowMs, rest);
      var vs := Verdicts(store, userKey, limit, windowMs, times);
      assert vs == [v.accepted] + vs';
      ShiftVerdicts(vs, v.accepted, vs', |stored|, |Lookup(v.store, userKey)|, limit);
    }
  }

  /** The verdicts of a burst, one call further on. */
  lemma ShiftVerdicts(vs: seq<bool>, first: bool, vs': seq<bool>, n: nat, n': nat, limit: nat)
    requires vs == [first] + vs'
    requires first <==> n < limit
    requires n' == if n < limit then n + 1 else n
    requires forall i :: 0 <= i < |vs'| ==> (vs'[i] <==> n' + i < limit)
    ensures forall i :: 0 <= i < |vs| ==> (vs[i] <==> n + i < limit)
  {
    forall i | 0 < i < |vs| ensures vs[i] <==> n + i < limit {
      assert vs[i] == vs'[i - 1];
    }
  }

  /** After the first call of a burst the rest of it is again a burst. */
  lemma BurstRest(store: Store, userKey: string, limit: nat, windowMs: int, times: seq<int>)
    requires |Lookup(store, userKey)| <= limit
    requires |times| > 1 && NonDecreasing(times)
    requires forall i :: 0 <= i < |Lookup(store, userKey)| ==> Lookup(store, userKey)[i] > times[|times| - 1] - windowMs
    requires forall i :: 0 <= i < |times| ==> times[i] > times[|times| - 1] - windowMs
    requires var v := Step(store, userKey, limit, windowMs, times[0]);
      var stored := Lookup(store, userKey);
      Lookup(v.store, userKey) == if |stored| < limit then stored + [times[0]] else stored
    ensures var stored' := Lookup(Step(store, userKey, limit, windowMs, times[0]).store, userKey);
      var rest := times[1..];
      |stored'| <= limit && NonDecreasing(rest)
      && (forall i :: 0 <= i < |stored'| ==> stored'[i] > rest[|rest| - 1] - windowMs)
      && (forall i :: 0 <= i < |rest| ==> rest[i] > rest[|rest| - 1] - windowMs)
  {
    var rest := times[1..];
    var last := times[|times| - 1];
    assert rest[|rest| - 1] == last;
    assert times[0] > last - windowMs;
    forall i, j | 0 <= i < j < |rest| ensures rest[i] <= rest[j] {
      assert rest[i] == times[i + 1] && rest[j] == times[j + 1];
    }
    forall i | 0 <= i < |rest| ensures rest[i] > last - windowMs {
      assert rest[i] == times[i + 1];
    }
  }

  /** The first call of such a burst: every stored timestamp is still in the
      window, so the call is accepted exactly when fewer than `limit` are
      stored, and then its time joins them. */
  lemma BurstFirst(store: Store, userKey: string, limit: nat, windowMs: int, times: seq<int>)
    requires times != [] && NonDecreasing(times)
    requires forall i :: 0 <= i < |Lookup(store, userKey)| ==> Lookup(store, userKey)[i] > times[|times| - 1] - windowMs
    ensures var v := Step(store, userKey, limit, windowMs, times[0]);
      var stored := Lookup(store, userKey);
      (v.accepted <==> |stored| < limit)
      && Lookup(v.store, userKey) == if |stored| < limit then stored + [times[0]] else stored
  {
    var stored := Lookup(store, userKey);
    assert times[0] <= times[|times| - 1];
    FilterAll(stored, After(times[0] - windowMs));
  }

  /** Within one minute, the eleventh batch update of a user is refused
      (and answered with 429) however the ten before it were spaced. */
  lemma EleventhBatchRefused(store: Store, userId: string, times: seq<int>)
    requires "batch:" + userId !in store
    requires |times| == BatchLimit + 1 && NonDecreasing(times)
    requires times[BatchLimit] - times[0] < BatchWindowMs
    ensures var vs := Verdicts(store, "batch:" + userId, BatchLimit, BatchWindowMs, times);
      |vs| == |times| && (forall i :: 0 <= i < BatchLimit ==> vs[i]) && !vs[BatchLimit]
  {
    BurstVerdicts(store, "batch:" + userId, BatchLimit, BatchWindowMs, times);
  }

  /** The module's process-wide state, `rlStore`, with `rateLimit` over it
      and the handler that consults it. */
  class Route {
    var rlStore: Store

    constructor()
      ensures rlStore == map[]
    {
      rlStore := map[];
    }

    /** `rateLimit(userKey, limit, windowMs)` at time `now`. */
    method RateLimit(userKey: string, limit: nat, windowMs: int, now: int) returns (ok: bool)
      modifies this
      ensures ok == Step(old(rlStore), userKey, limit, windowMs, now).accepted
      ensures rlStore == Step(old(rlStore), userKey, limit, windowMs, now).store
    {
      var cutoff := now - windowMs;
      var arr := Lookup(rlStore, userKey);
      var recent := [];
      var i := 0;
      while i < |arr|
        invariant 0 <= i <= |arr|
        invariant recent == Recent(arr[..i], cutoff)
        invariant rlStore == old(rlStore)
      {
        assert arr[..i + 1] == arr[..i] + [arr[i]];
        FilterAppend(arr[..i], arr[i], After(cutoff));
        if arr[i] > cutoff {
          recent := recent + [arr[i]];
        }
        i := i + 1;
      }
      assert arr[..i] == arr;
      if |recent| >= limit {
        rlStore := rlStore[userKey := recent];
        return false;
      }
      recent := recent + [now];
      rlStore := rlStore[userKey := recent];
      return true;
    }

    /** `POST` at time `now`. */
    method Post(env: Env, session: Option<Session>, body: Body, now: int, s: Services) returns (r: Response<nat>)
      modifies this
      ensures r == Handle(old(rlStore), env, session, body, now, s).response
      ensures rlStore == Handle(old(rlStore), env, session, body, now, s).store
    {
      if IsProduction(env) && Present(env.devUserId) {
        return Error(500, DevUserInProductionMessage);
      }
      if body.Unparsable? {
        return Error(500, BodyErrorMessage);
      }
      if body.NullBody? {
        return Error(500, TypeErrorMessage);
      }
      var crateId := body.request.crateId;
      var albumIds := StringArray(body.request.albumIds);
      if |albumIds| == 0 {
        return Ok(0);
      }
      var caller := ResolveCaller(env, session);
      if caller.Anonymous? {
        return Error(401, UnauthorizedMessage);
      }
      var user := if caller.Bypass? then Done(caller.userId) else s.me(caller.accessToken);
      if user.Failed? {
        return Error(500, user.message);
      }
      var userId := user.value;
      var ok := RateLimit(RateLimitKey(userId), BatchLimit, BatchWindowMs, now);
      if !ok {
        return Error(429, RateLimitedMessage);
      }
      if !SupabaseConfigured(env) {
        return Error(500, SupabaseMissingMessage);
      }
      if Truthy(crateId) {
        var owner := s.crateOwner(crateId);
        if owner.Failed? {
          return Error(500, owner.message);
        }
        if owner.value != Some(userId) {
          return Error(404, CrateNotFoundMessage);
        }
      }
      var updated := s.update(userId, crateId, albumIds);
      if updated.Failed? {
        return Error(500, updated.message);
      }
      return Ok(|updated.value|);
    }
  }

  // ---------------------------------------------------------------------
  // The handler

  /** The fields of the request body the handler reads: `crate_id ?? null`
      and `album_ids`. */
  datatype BatchRequest = BatchRequest(crateId: Json, albumIds: Json)

  /** What `await req.json()` yields. */
  datatype Body = Unparsable | NullBody | Fields(request: BatchRequest)

  datatype Services = Services(
    me: string -> Upstream<string>,
    /** The `user_id` of the crate with the given id, if there is one. */
    crateOwner: Json -> Upstream<Option<string>>,
    /** Sets `crate_id` on the user's rows among the album ids and returns
        the album ids of the rows it changed. */
    update: (string, Json, seq<string>) -> Upstream<seq<string>>)

  /** The answer and the rate limiter's store after a request. */
  datatype Outcome = Outcome(response: Response<nat>, store: Store)

  function RateLimitKey(userId: string): string {
    "batch:" + userId
  }

  /** After the user is known: rate limit, then the optional ownership check,
      then the update. */
  function Limited(store: Store, env: Env, userId: string, crateId: Json, albumIds: seq<string>, now: int,
                   s: Services): (o: Outcome)
    ensures o.store == Step(store, RateLimitKey(userId), BatchLimit, BatchWindowMs, now).store
    ensures (o.response.Error? && o.response.status == 429)
        <==> !Step(store, RateLimitKey(userId), BatchLimit, BatchWindowMs, now).accepted
    ensures o.response.Error? ==> o.response.status in {404, 429, 500}
    ensures (o.response.Error? && o.response.status == 404)
        <==> Step(store, RateLimitKey(userId), BatchLimit, BatchWindowMs, now).accepted && SupabaseConfigured(env)
             && Truthy(crateId) && s.crateOwner(crateId).Done? && s.crateOwner(crateId).value != Some(userId)
    ensures o.response.Ok? ==>
      (Truthy(crateId) ==> s.crateOwner(crateId) == Done(Some(userId)))
      && s.update(userId, crateId, albumIds).Done?
      && o.response.body == |s.update(userId, crateId, albumIds).value|
  {
    var v := Step(store, RateLimitKey(userId), BatchLimit, BatchWindowMs, now);
    if !v.accepted then Outcome(Error(429, RateLimitedMessage), v.store)
    else if !SupabaseConfigured(env) then Outcome(Error(500, SupabaseMissingMessage), v.store)
    else
      var owner := if Truthy(crateId) then s.crateOwner(crateId) else Done(Some(userId));
      match owner
      case Failed(message) => Outcome(Error(500, message), v.store)
      case Done(o) =>
        if o != Some(userId) then Outcome(Error(404, CrateNotFoundMessage), v.store)
        else
          match s.update(userId, crateId, albumIds)
          case Failed(message) => Outcome(Error(500, message), v.store)
          case Done(rows) => Outcome(Ok(|rows|), v.store)
  }

  /** The production guard passed and the body named at least one album. */
  predicate ReachesAuth(env: Env, body: Body) {
    !(IsProduction(env) && Present(env.devUserId)) && body.Fields? && |StringArray(body.request.albumIds)| > 0
  }

  /** `POST` as a function of the limiter's store before the request: the
      production guard comes first, an empty id list is answered with
      `{updated: 0}` before the caller is looked at, an anonymous caller
      gets 401, and only a request that gets past all three reaches the rate
      limiter and the store. */
  function Handle(store: Store, env: Env, session: Option<Session>, body: Body, now: int, s: Services): (o: Outcome)
    ensures IsProduction(env) && Present(env.devUserId) ==> o == Outcome(Error(500, DevUserInProductionMessage), store)
    ensures !(IsProduction(env) && Present(env.devUserId)) && body.Fields? && StringArray(body.request.albumIds) == []
      ==> o == Outcome(Ok(0), store)
    ensures (o.response.Error? && o.response.status == 401) <==> ReachesAuth(env, body) && ResolveCaller(env, session).Anonymous?
    ensures o.response.Error? && o.response.status in {404, 429} ==> ReachesAuth(env, body) && !ResolveCaller(env, session).Anonymous?
    ensures o.store != store ==> ReachesAuth(env, body) && !ResolveCaller(env, session).Anonymous?
  {
    if IsProduction(env) && Present(env.devUserId) then Outcome(Error(500, DevUserInProductionMessage), store)
    else
      match body
      case Unparsable => Outcome(Error(500, BodyErrorMessage), store)
      case NullBody => Outcome(Error(500, TypeErrorMessage), store)
      case Fields(request) =>
        var albumIds := StringArray(request.albumIds);
        if |albumIds| == 0 then Outcome(Ok(0), store)
        else
          var caller := ResolveCaller(env, session);
          if caller.Anonymous? then Outcome(Error(401, UnauthorizedMessage), store)
          else
            var user := if caller.Bypass? then Done(caller.userId) else s.me(caller.accessToken);
            match user
            case Failed(message) => Outcome(Error(500, message), store)
            case Done(userId) => Limited(store, env, userId, request.crateId, albumIds, now, s)
  }

  /** The store stays bounded by the batch limit across requests. */
  lemma HandleKeepsBounded(store: Store, env: Env, session: Option<Session>, body: Body, now: int, s: Services)
    requires Bounded(store, BatchLimit)
    ensures Bounded(Handle(store, env, session, body, now, s).store, BatchLimit)
  {
    if ReachesAuth(env, body) {
      var caller := ResolveCaller(env, session);
      if !caller.Anonymous? {
        var user := if caller.Bypass? then Done(caller.userId) else s.me(caller.accessToken);
        if user.Done? {
          StepKeepsBounded(store, RateLimitKey(user.value), BatchLimit, BatchWindowMs, now);
        }
      }
    }
  }

  /** Under the development bypass, a request with album ids is refused with
      429 exactly when the limiter refuses the bypass user's key. */
  lemma BypassRateLimited(store: Store, env: Env, session: Option<Session>, request: BatchRequest, now: int, s: Services)
    requires ReachesAuth(env, Fields(request)) && ResolveCaller(env, session).Bypass?
    ensures var o := Handle(store, env, session, Fields(request), now, s);
      (o.response.Error? && o.response.status == 429)
      <==> !Step(store, RateLimitKey(ResolveCaller(env, session).userId), BatchLimit, BatchWindowMs, now).accepted
  {
  }
}
