/**
 * The response cache middleware of src/middleware/cache.ts, one request at a
 * time: blacklisted paths and non-GET requests go straight to the handler; a
 * fresh entry is served unless the request forces a refresh; otherwise the
 * handler runs and a 200 response body is cached and served.
 */
module CacheMiddleware {
  import opened Wrappers
  import opened Store
  import CacheKeys
  import Freshness

  /** The options the middleware is built with; both may be left out. */
  datatype CacheOptions = CacheOptions(maxAge: Option<int>, blacklist: Option<seq<string>>)

  /** The settings in force once defaults are applied. */
  datatype Config = Config(maxAge: int, blacklist: seq<string>)

  const DEFAULT_MAX_AGE: int := 60
  const DEFAULT_BLACKLIST: seq<string> := ["/favicon.ico"]

  /** Applies the defaults: the environment's maximum age, else 60 seconds; the favicon blacklist. */
  function Configure(options: CacheOptions, envMaxAge: Option<int>): Config {
    Config(options.maxAge.GetOr(envMaxAge.GetOr(DEFAULT_MAX_AGE)), options.blacklist.GetOr(DEFAULT_BLACKLIST))
  }

  lemma DefaultConfiguration()
    ensures Configure(CacheOptions(None, None), None) == Config(60, ["/favicon.ico"])
    ensures forall env :: Configure(CacheOptions(None, None), Some(env)).maxAge == env
  {
  }

  /**
   * An inbound request: its HTTP method, its path, its raw query string (`?...` or
   * empty) and the first value of its `forceFetch` query parameter, if any.
   */
  datatype Request = Request(verb: string, path: string, search: string, forceFetchParam: Option<string>)

  /** The body of the handler's response: JSON, or something `json()` rejects. */
  datatype Body<T> = Json(value: T) | NotJson

  datatype HandlerResponse<T> = HandlerResponse(status: int, body: Body<T>)

  datatype MiddlewareError = BodyNotJson | CacheWriteFailed(reason: string)

  /**
   * The terminal states of one request. `ServedFromCache` and
   * `CachedAndServed` are JSON responses built by the middleware;
   * `Passthrough` leaves the handler's own response; `Raised` is an error
   * thrown out of the middleware.
   */
  datatype Outcome<T> =
    | Passthrough(response: HandlerResponse<T>)
    | ServedFromCache(data: T)
    | CachedAndServed(data: T)
    | Raised(error: MiddlewareError)

  /** The response-cache key: pathname and query string together, `forceFetch` included. */
  function RequestKey(req: Request): string {
    CacheKeys.Normalize(req.path + req.search)
  }

  /** Only the exact value `true` forces a refresh. */
  predicate IsForced(req: Request) {
    req.forceFetchParam == Some("true")
  }

  /** Requests the middleware considers for caching at all. */
  predicate Cacheable(config: Config, req: Request) {
    req.path !in config.blacklist && req.verb == "GET"
  }

  /** Whether the request is answered from the cache without running the handler. */
  ghost predicate ServedFresh<T>(files: map<string, Slot<T>>, config: Config, req: Request, now: int) {
    Cacheable(config, req) && !IsForced(req) && Freshness.FreshHit(Lookup(files, RequestKey(req)), now, config.maxAge)
  }

  /**
   * One request through the middleware. `handler` is what the downstream
   * handler would respond; `handlerRuns` counts how often it is invoked.
   * `now` is the clock at the freshness check and `savedAt` the clock when the
   * store write happens; `writeFault` is how the file system answers that write.
   */
  method Handle<T>(dir: CacheDir<T>, config: Config, req: Request, now: int, savedAt: int,
                   handler: HandlerResponse<T>, writeFault: Option<IoFault>)
    returns (out: Outcome<T>, handlerRuns: nat)
    modifies dir
    // blacklisted paths (checked first) and non-GET requests: straight to the handler, store untouched
    ensures !Cacheable(config, req) ==>
              out == Passthrough(handler) && handlerRuns == 1 && dir.files == old(dir.files)
    // fresh entry, not forced: served from the cache, handler not run, store untouched
    ensures ServedFresh(old(dir.files), config, req, now) ==>
              && out == ServedFromCache(Lookup(old(dir.files), RequestKey(req)).value.data)
              && handlerRuns == 0
              && dir.files == old(dir.files)
    // otherwise the handler runs exactly once
    ensures Cacheable(config, req) && !ServedFresh(old(dir.files), config, req, now) ==> handlerRuns == 1
    // a non-200 response stands and nothing is written
    ensures Cacheable(config, req) && !ServedFresh(old(dir.files), config, req, now) && handler.status != 200 ==>
              out == Passthrough(handler) && dir.files == old(dir.files)
    // a 200 response whose body is not JSON: the middleware throws, nothing is written
    ensures Cacheable(config, req) && !ServedFresh(old(dir.files), config, req, now)
            && handler.status == 200 && handler.body.NotJson? ==>
              out == Raised(BodyNotJson) && dir.files == old(dir.files)
    // a 200 JSON response: its body replaces the entry and is served
    ensures Cacheable(config, req) && !ServedFresh(old(dir.files), config, req, now)
            && handler.status == 200 && handler.body.Json? && writeFault.None? ==>
              && out == CachedAndServed(handler.body.value)
              && dir.files == old(dir.files)[RequestKey(req) := Saved(handler.body.value, savedAt)]
    // ... unless the write fails, which the middleware throws
    ensures Cacheable(config, req) && !ServedFresh(old(dir.files), config, req, now)
            && handler.status == 200 && handler.body.Json? && writeFault.Some? ==>
              && out == Raised(CacheWriteFailed(writeFault.value.reason))
              && dir.files == AfterFault(old(dir.files), RequestKey(req), writeFault.value)
    // what is served after caching is exactly what is now stored
    ensures out.CachedAndServed? ==> Lookup(dir.files, RequestKey(req)) == Some(Entry(out.data, savedAt, None))
    // no other key is touched
    ensures forall k :: k != RequestKey(req) ==> Lookup(dir.files, k) == Lookup(old(dir.files), k)
  {
    if req.path in config.blacklist {
      return Passthrough(handler), 1;
    }
    if req.verb != "GET" {
      return Passthrough(handler), 1;
    }
    var key := RequestKey(req);
    if !IsForced(req) {
      var cached := dir.Get(key);
      if cached.Some? && Freshness.IsFresh(now, cached.value.timestamp, config.maxAge) {
        return ServedFromCache(cached.value.data), 0;
      }
    }
    handlerRuns := 1;
    if handler.status == 200 {
      match handler.body
      case NotJson =>
        out := Raised(BodyNotJson);
      case Json(data) =>
        var written := dir.Set(key, data, savedAt, writeFault);
        if written.Written? {
          out := CachedAndServed(data);
        } else {
          out := Raised(CacheWriteFailed(written.reason));
        }
    } else {
      out := Passthrough(handler);
    }
  }

  /**
   * A GET request that finds no fresh entry (none, a stale one or an
   * unparseable one) and whose handler answers 200 with JSON is cached; the same
   * request repeated within the maximum age is served that body from the cache
   * without running the handler again.
   */
  method RepeatServedFromCache<T>(existing: map<string, Slot<T>>, config: Config, req: Request,
                                  first: HandlerResponse<T>, later: HandlerResponse<T>, t1: int, t2: int)
    returns (out1: Outcome<T>, out2: Outcome<T>, laterRuns: nat)
    requires Cacheable(config, req) && !IsForced(req)
    requires first.status == 200 && first.body.Json?
    requires Freshness.IsFresh(t2, t1, config.maxAge)
    requires !ServedFresh(existing, config, req, t1)
    ensures out1 == CachedAndServed(first.body.value)
    ensures out2 == ServedFromCache(first.body.value) && laterRuns == 0
  {
    var dir := new CacheDir<T>(existing);
    var firstRuns;
    out1, firstRuns := Handle(dir, config, req, t1, t1, first, None);
    out2, laterRuns := Handle(dir, config, req, t2, t2, later, None);
  }

  /** The query string of the same request with `forceFetch=true` appended, as a URL spells it. */
  function WithForceFetch(search: string): string {
    (if search == "" then "?" else search + "&") + "forceFetch=true"
  }

  /**
   * A forced refresh stores its body under its own key, so the same request
   * without the flag still reads the entry it had before; for instance
   * `/markets?forceFetch=true` never refreshes what `/markets` is served.
   */
  method ForcedRefreshLeavesPlainEntry<T>(existing: map<string, Slot<T>>, config: Config, path: string,
                                          search: string, handler: HandlerResponse<T>, now: int, savedAt: int)
    returns (plainBefore: Option<Entry<T>>, plainAfter: Option<Entry<T>>)
    requires path !in config.blacklist
    ensures plainAfter == plainBefore
  {
    var dir := new CacheDir<T>(existing);
    var plain := Request("GET", path, search, None);
    var forced := Request("GET", path, WithForceFetch(search), Some("true"));
    plainBefore := dir.Get(RequestKey(plain));
    CacheKeys.KeysOfDifferentLengthsDiffer(path + forced.search, path + search);
    var out, runs := Handle(dir, config, forced, now, savedAt, handler, None);
    plainAfter := dir.Get(RequestKey(plain));
  }

  /**
   * A route that answers 200 with a body that is not JSON (such as plain
   * text) makes the middleware throw whenever the request is not served from
   * the cache, and nothing is cached for it.
   */
  method NonJsonSuccessRaises<T>(existing: map<string, Slot<T>>, config: Config, req: Request, now: int, savedAt: int)
    returns (out: Outcome<T>, stored: Option<Entry<T>>)
    requires Cacheable(config, req) && !ServedFresh(existing, config, req, now)
    ensures out == Raised(BodyNotJson)
    ensures stored == Lookup(existing, RequestKey(req))
  {
    var dir := new CacheDir<T>(existing);
    var runs;
    out, runs := Handle(dir, config, req, now, savedAt, HandlerResponse(200, NotJson), None);
    stored := dir.Get(RequestKey(req));
  }
}
