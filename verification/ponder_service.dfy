/**
 * The upstream fetch cache of src/utils/ponder-service.ts: serve a fresh
 * entry unless forced, otherwise call upstream and store the answer, and
 * when anything on that path fails fall back to whatever entry exists,
 * however stale.
 */
module PonderService {
  import opened Wrappers
  import opened Store
  import CacheKeys
  import Freshness

  /** The per-call options; `cacheKey` is declared by the source but never read. */
  datatype FetchOptions = FetchOptions(cacheKey: Option<string>, forceFetch: Option<bool>)

  /** The environment: the upstream base URL and the maximum cache age in seconds, if set. */
  datatype Env = Env(baseUrl: Option<string>, maxCacheTime: Option<int>)

  /**
   * What the network answers for one URL: no answer at all, or an HTTP
   * response with its ok flag, its status text and its body when the body
   * parses as JSON.
   */
  datatype Reply<T> = Unreachable(reason: string) | Response(ok: bool, statusText: string, body: Option<T>)

  datatype FetchError =
    | MissingBaseUrl
    | ApiError(statusText: string)
    | NetworkError(reason: string)
    | InvalidJson
    | CacheWriteError(reason: string)

  const DEFAULT_MAX_CACHE_TIME: int := 60

  function MaxCacheTime(env: Env): int {
    env.maxCacheTime.GetOr(DEFAULT_MAX_CACHE_TIME)
  }

  /** `forceFetch` defaults to false when the caller leaves it out. */
  predicate IsForced(options: FetchOptions) {
    options.forceFetch.GetOr(false)
  }

  /** The fetch-layer key depends on the endpoint alone. */
  function KeyOf(endpoint: string): string {
    CacheKeys.Normalize(endpoint)
  }

  predicate HasBaseUrl(baseUrl: Option<string>) {
    baseUrl.Some? && baseUrl.value != ""
  }

  /**
   * One upstream request for `baseUrl + endpoint`. An unset or empty base URL
   * fails before the network is consulted; a non-ok status and a body that is
   * not JSON are failures too.
   */
  function FetchFromPonder<T>(baseUrl: Option<string>, endpoint: string, network: string -> Reply<T>): (r: Result<T, FetchError>)
    ensures r == Err(MissingBaseUrl) <==> !HasBaseUrl(baseUrl)
    ensures r.Ok? <==> HasBaseUrl(baseUrl) && network(baseUrl.value + endpoint).Response?
                       && network(baseUrl.value + endpoint).ok && network(baseUrl.value + endpoint).body.Some?
    ensures r.Ok? ==> network(baseUrl.value + endpoint).body == Some(r.value)
    ensures HasBaseUrl(baseUrl) && network(baseUrl.value + endpoint).Response? && !network(baseUrl.value + endpoint).ok
            ==> r == Err(ApiError(network(baseUrl.value + endpoint).statusText))
    ensures HasBaseUrl(baseUrl) && network(baseUrl.value + endpoint).Unreachable?
            ==> r == Err(NetworkError(network(baseUrl.value + endpoint).reason))
    ensures HasBaseUrl(baseUrl) && network(baseUrl.value + endpoint).Response?
            && network(baseUrl.value + endpoint).ok && network(baseUrl.value + endpoint).body.None?
            ==> r == Err(InvalidJson)
  {
    if !HasBaseUrl(baseUrl) then Err(MissingBaseUrl)
    else match network(baseUrl.value + endpoint)
      case Unreachable(why) => Err(NetworkError(why))
      case Response(ok, statusText, body) =>
        if !ok then Err(ApiError(statusText))
        else if body.None? then Err(InvalidJson)
        else Ok(body.value)
  }

  /** Without a base URL the answer does not depend on the network at all. */
  lemma MissingBaseUrlPrecedesNetwork<T>(baseUrl: Option<string>, endpoint: string, n1: string -> Reply<T>, n2: string -> Reply<T>)
    requires !HasBaseUrl(baseUrl)
    ensures FetchFromPonder(baseUrl, endpoint, n1) == FetchFromPonder(baseUrl, endpoint, n2) == Err(MissingBaseUrl)
  {
  }

  /** Whether the call is answered from the cache without going upstream. */
  ghost predicate ServedFresh<T>(files: map<string, Slot<T>>, endpoint: string, options: FetchOptions, env: Env, now: int) {
    !IsForced(options) && Freshness.FreshHit(Lookup(files, KeyOf(endpoint)), now, MaxCacheTime(env))
  }

  /**
   * fetchPonderData. `now` is the clock at the freshness check and `savedAt`
   * the clock when the store write happens; `writeFault` is how the file
   * system answers that write. `upstreamCalls` counts upstream requests.
   */
  method FetchPonderData<T>(dir: CacheDir<T>, endpoint: string, options: FetchOptions, env: Env,
                            network: string -> Reply<T>, now: int, savedAt: int, writeFault: Option<IoFault>)
    returns (r: Result<T, FetchError>, upstreamCalls: nat)
    modifies dir
    // fresh hit: cached data, no upstream call, nothing written
    ensures ServedFresh(old(dir.files), endpoint, options, env, now) ==>
              && r == Ok(Lookup(old(dir.files), KeyOf(endpoint)).value.data)
              && upstreamCalls == 0
              && dir.files == old(dir.files)
    // otherwise upstream is asked exactly once
    ensures !ServedFresh(old(dir.files), endpoint, options, env, now) ==> upstreamCalls == 1
    // upstream answered and the write succeeded: the entry is replaced and the data returned
    ensures var fetched := FetchFromPonder(env.baseUrl, endpoint, network);
            !ServedFresh(old(dir.files), endpoint, options, env, now) && fetched.Ok? && writeFault.None? ==>
              && r == fetched
              && dir.files == old(dir.files)[KeyOf(endpoint) := Saved(fetched.value, savedAt)]
    // upstream failed: any existing entry is served, however stale; else the original error
    ensures var fetched := FetchFromPonder(env.baseUrl, endpoint, network);
            var before := Lookup(old(dir.files), KeyOf(endpoint));
            !ServedFresh(old(dir.files), endpoint, options, env, now) && fetched.Err? ==>
              && dir.files == old(dir.files)
              && r == (if before.Some? then Ok(before.value.data) else Err(fetched.error))
    // upstream answered but the write failed: the same fallback, on the store as the failed write left it
    ensures var fetched := FetchFromPonder(env.baseUrl, endpoint, network);
            var after := Lookup(dir.files, KeyOf(endpoint));
            !ServedFresh(old(dir.files), endpoint, options, env, now) && fetched.Ok? && writeFault.Some? ==>
              && dir.files == AfterFault(old(dir.files), KeyOf(endpoint), writeFault.value)
              && r == (if after.Some? then Ok(after.value.data) else Err(CacheWriteError(writeFault.value.reason)))
    // an error reaches the caller only when no usable entry exists
    ensures r.Err? ==> Lookup(dir.files, KeyOf(endpoint)).None?
    // no other key is touched
    ensures forall k :: k != KeyOf(endpoint) ==> Lookup(dir.files, k) == Lookup(old(dir.files), k)
  {
    var key := KeyOf(endpoint);
    if !IsForced(options) {
      var cached := dir.Get(key);
      if cached.Some? && Freshness.IsFresh(now, cached.value.timestamp, MaxCacheTime(env)) {
        return Ok(cached.value.data), 0;
      }
    }
    upstreamCalls := 1;
    var failure: FetchError;
    var fetched := FetchFromPonder(env.baseUrl, endpoint, network);
    if fetched.Ok? {
      var written := dir.Set(key, fetched.value, savedAt, writeFault);
      if written.Written? {
        return fetched, 1;
      }
      failure := CacheWriteError(written.reason);
    } else {
      failure := fetched.error;
    }
    var cached := dir.Get(key);
    if cached.Some? {
      r := Ok(cached.value.data);
    } else {
      r := Err(failure);
    }
  }

  /**
   * A forced fetch that succeeds refreshes the entry, so an unforced call for
   * the same endpoint within the maximum cache age is answered from the cache
   * with the same data and no upstream request.
   */
  method FreshHitAfterForcedFetch<T>(existing: map<string, Slot<T>>, endpoint: string, env: Env,
                                     network: string -> Reply<T>, t1: int, t2: int)
    returns (first: Result<T, FetchError>, second: Result<T, FetchError>, secondCalls: nat)
    requires FetchFromPonder(env.baseUrl, endpoint, network).Ok?
    requires Freshness.IsFresh(t2, t1, MaxCacheTime(env))
    ensures first == FetchFromPonder(env.baseUrl, endpoint, network)
    ensures second == first && secondCalls == 0
  {
    var dir := new CacheDir<T>(existing);
    var firstCalls;
    first, firstCalls := FetchPonderData(dir, endpoint, FetchOptions(None, Some(true)), env, network, t1, t1, None);
    second, secondCalls := FetchPonderData(dir, endpoint, FetchOptions(None, None), env, network, t2, t2, None);
  }

  /**
   * Once a fetch has succeeded, a later call whose upstream request fails
   * returns that data, whatever its age and whether or not it is forced.
   */
  method StaleFallbackAfterOutage<T>(existing: map<string, Slot<T>>, endpoint: string, options: FetchOptions,
                                     env: Env, up: string -> Reply<T>, down: string -> Reply<T>, t1: int, t2: int)
    returns (first: Result<T, FetchError>, second: Result<T, FetchError>)
    requires FetchFromPonder(env.baseUrl, endpoint, up).Ok?
    requires FetchFromPonder(env.baseUrl, endpoint, down).Err?
    ensures first == FetchFromPonder(env.baseUrl, endpoint, up)
    ensures second == first
  {
    var dir := new CacheDir<T>(existing);
    var calls;
    first, calls := FetchPonderData(dir, endpoint, FetchOptions(None, Some(true)), env, up, t1, t1, None);
    second, calls := FetchPonderData(dir, endpoint, options, env, down, t2, t2, None);
  }

  /** With no readable entry for the endpoint (no file, or one that does not parse) and a failing upstream, the upstream error is returned and nothing is stored. */
  method HardFailure<T>(existing: map<string, Slot<T>>, endpoint: string, options: FetchOptions, env: Env,
                        down: string -> Reply<T>, now: int, savedAt: int)
    returns (r: Result<T, FetchError>, stored: Option<Entry<T>>)
    requires Lookup(existing, KeyOf(endpoint)).None?
    requires FetchFromPonder(env.baseUrl, endpoint, down).Err?
    ensures r == Err(FetchFromPonder(env.baseUrl, endpoint, down).error)
    ensures stored == None
  {
    var dir := new CacheDir<T>(existing);
    var calls;
    r, calls := FetchPonderData(dir, endpoint, options, env, down, now, savedAt, None);
    stored := dir.Get(KeyOf(endpoint));
  }
}
