# synstation-cache: the two-layer read-through cache, in Dafny

The service is a small caching proxy in front of a Ponder indexing API. Its
logic is a two-layer read-through cache; the rest is I/O glue. This project models
that logic and proves its branches:

- **Fetch cache with stale fallback** (`src/utils/ponder-service.ts`,
  `fetchPonderData`). The key is derived from the endpoint alone. A fresh
  entry is served unless the call is forced. Otherwise upstream is asked once:
  - on success the entry is replaced by `{data, timestamp}` and the data is
    returned;
  - on any failure (no base URL, an unreachable network, a non-ok status, a
    body that is not JSON, a failed cache write) the existing entry is
    returned, however stale;
  - with no entry at all, the original error is rethrown.
- **Response cache middleware** (`src/middleware/cache.ts`, `cache`). This is
  one request's state machine:
  - a blacklisted path (checked first) or a non-GET request passes through;
  - a fresh entry answers an unforced request without running the handler;
  - a 200 JSON response is cached and served;
  - any other status passes through, and nothing is written.

Both layers share two pure pieces, in module `CacheKeys` and module
`Freshness`. The first is key normalisation: every character outside
`[a-zA-Z0-9]` becomes `_`. The second is the strict freshness test
`now - timestamp < maxAge`. Both layers also use the same store, module
`Store`. It is a class `CacheDir` whose field `files` maps each key to what
its file holds: a parsed entry, or content that does not parse. Each layer
owns its own `CacheDir`, because the source keeps the layers in separate
directories. A missing file and an unparseable file both read as "no entry".

Two things enter the model as parameters:

- **Writes.** `fs.writeFile` is not atomic. A failed write is modelled with
  an `IoFault`:
  - `Unwritten`: the directory could not be created or the file could not be
    opened, so the old content stays;
  - `Truncated`: the file was opened, and so emptied, before the write failed.
    The entry then reads as absent, and the fetch layer's fallback rethrows
    the write error.
- **The clock.** It is read twice. `now` is the time of the freshness check.
  `savedAt` is the time the store write stamps, and it is taken after the
  upstream call or the handler has run.

Upstream is a function `network: string -> Reply<T>`, applied to
`baseUrl + endpoint`. The handler is its `(status, body)` response.

Some behaviour is described for this system but is absent from the code. The
model follows the code:

- there is no upstream timeout;
- an empty array from upstream is not rejected;
- the `cacheKey` option is ignored;
- the middleware does not strip `forceFetch` from its key.

`CacheMiddleware.ForcedRefreshLeavesPlainEntry` shows what the last point
means: a forced refresh writes under its own key, so the plain request's entry
is left as it was.

The routes include `GET /`, which answers 200 with the plain text `Hono!`
(src/index.ts:13). Text is not JSON, so the middleware throws on every such
request, and nothing is ever cached for it. `CacheMiddleware.NonJsonSuccessRaises`
states this branch.

## Model

| member | source | states |
|---|---|---|
| `CacheKeys.Normalize` | src/middleware/cache.ts:54 | the key has the input's length and contains only alphanumerics and `_` |
| `CacheKeys.NormalizeAt` | src/middleware/cache.ts:54 | at every position the key keeps an alphanumeric character and has `_` in place of any other, which is what the global regex replacement does |
| `CacheKeys.NormalizeAppend` | src/utils/ponder-service.ts:51 | normalising a concatenation is concatenating the normalised parts |
| `CacheKeys.KeyIsFixedPoint` | src/utils/ponder-service.ts:51 | a string made only of key characters is its own key |
| `CacheKeys.NormalizeIdempotent` | src/middleware/cache.ts:54 | normalising a key again changes nothing |
| `CacheKeys.NormalizeInjectiveOnAlnum` | src/utils/ponder-service.ts:51 | two purely alphanumeric strings with the same key are equal |
| `CacheKeys.SameKeyUpToPunctuation` | src/middleware/cache.ts:54 | strings of equal length that differ only where both hold non-alphanumerics share a key |
| `CacheKeys.SameKeyOnlyUpToPunctuation` | src/middleware/cache.ts:54 | conversely, two strings share a key only if they have the same length and differ only where both hold non-alphanumerics |
| `CacheKeys.KeysCanCollide` | src/middleware/cache.ts:53-54 | the substitution is lossy: `/a?x=1` and `/a_x=1` are distinct and share a key |
| `CacheKeys.QueryEndpointKey` | src/utils/ponder-service.ts:51 | `/p?n=v` with alphanumeric parts is stored under `_p_n_v` |
| `CacheKeys.MarketsKey` | src/index.ts:25 | the endpoint `/markets?marketIndex=3` is stored under `_markets_marketIndex_3` |
| `CacheKeys.ParamKey` | src/middleware/cache.ts:54 | a query parameter `n=v` with alphanumeric parts normalises to `n_v` |
| `CacheKeys.ParamStaysInKey` | src/middleware/cache.ts:53-54 | such a parameter appears in the key, at the same place, whatever surrounds it |
| `CacheKeys.ForceFetchStaysInKey` | src/middleware/cache.ts:53-54 | `forceFetch=true` is not stripped: it appears as `forceFetch_true` in the key |
| `CacheKeys.KeysOfDifferentLengthsDiffer` | src/middleware/cache.ts:54 | targets of different lengths never share a key |
| `CacheKeys.ForcedRequestHasOwnKey` | src/middleware/cache.ts:53-57 | adding `forceFetch=true` anywhere in the query string (after `?` or `&`) gives a key different from the same request without it |
| `Freshness.FreshWindow` | src/middleware/cache.ts:63 | an entry stamped `t` is fresh at `t + age` exactly when `age < maxAge`; at age `maxAge` it is a miss |
| `Store.CacheDir.Get` | src/middleware/cache.ts:20-28 | a read yields the parsed entry when the key's file holds one, and "no entry" for a missing or unparseable file, never an error (the same code is `getFromCache`, src/utils/ponder-service.ts:27-35) |
| `Store.CacheDir.Set` | src/utils/ponder-service.ts:16-25 | a successful write replaces the key's file with `{data, timestamp: savedAt}` and touches nothing else; `Unwritten` leaves the store as it was; `Truncated` leaves the key unparseable (the same code is `setCachedResponse`, src/middleware/cache.ts:30-38) |
| `Store.WriteThenRead` | src/middleware/cache.ts:20-38 | a write followed by a read of the same key returns exactly the written data and timestamp, with no `error` field |
| `Store.WriteIsolatesKeys` | src/utils/ponder-service.ts:23-24 | a write, successful or failed, leaves every other key's entry as it was |
| `PonderService.FetchFromPonder` | src/utils/ponder-service.ts:37-47 | an unset or empty base URL fails with `MissingBaseUrl`, and only then; the result is the JSON body exactly when the URL `baseUrl + endpoint` answers ok with a JSON body; a non-ok status fails with its status text, an unreachable network with its reason, and an ok reply whose body is not JSON with `InvalidJson` |
| `PonderService.MissingBaseUrlPrecedesNetwork` | src/utils/ponder-service.ts:38-41 | without a base URL the outcome does not depend on the network at all |
| `PonderService.FetchPonderData` | src/utils/ponder-service.ts:49-72 | fresh unforced hit: cached data, no upstream call, store unchanged. Otherwise one upstream call. On success with a good write: entry replaced by `{data, savedAt}`, data returned. On upstream failure: store unchanged, the old entry's data if any, else the original error. On a failed write: the same fallback on the store the write left. An error is returned only when no entry is readable. Other keys are never touched |
| `PonderService.FreshHitAfterForcedFetch` | src/utils/ponder-service.ts:52-66 | a forced fetch that succeeds, followed within the maximum cache age by an unforced call, gives the same data with no upstream call |
| `PonderService.StaleFallbackAfterOutage` | src/utils/ponder-service.ts:63-71 | after a successful fetch, a later call whose upstream fails returns that data, at any age, forced or not |
| `PonderService.HardFailure` | src/utils/ponder-service.ts:67-70 | with no readable entry and a failing upstream, the upstream's own error is returned and the key still has no readable entry; this holds for any directory in which the key has no file or an unparseable one, whatever other keys it holds |
| `CacheMiddleware.DefaultConfiguration` | src/middleware/cache.ts:41 | with no options and no environment value the maximum age is 60 and the blacklist is `['/favicon.ico']`; an environment value replaces the default age |
| `CacheMiddleware.Handle` | src/middleware/cache.ts:40-77 | blacklisted path or non-GET: handler runs once, its response stands, store unchanged. Fresh unforced hit: cached data, handler not run, store unchanged. Otherwise the handler runs once. Non-200: its response stands, nothing written. 200 with a non-JSON body: throws, nothing written. 200 JSON: entry replaced by `{body, savedAt}` and that body served. A failed write throws. What is served after caching is what is stored. Other keys are never touched |
| `CacheMiddleware.RepeatServedFromCache` | src/middleware/cache.ts:59-75 | a request that finds no fresh entry (none, a stale one or an unparseable one) and gets a 200 JSON response caches it; the same request within the maximum age is served that body from the cache without running the handler |
| `CacheMiddleware.ForcedRefreshLeavesPlainEntry` | src/middleware/cache.ts:53-59 | a request with `forceFetch=true` appended to its query string (`?forceFetch=true` when it had none, `&forceFetch=true` otherwise) never changes the entry the same request without the flag reads; `/markets?forceFetch=true` leaves `/markets` as it was |
| `CacheMiddleware.NonJsonSuccessRaises` | src/middleware/cache.ts:72-75 | a 200 response whose body is not JSON makes the middleware throw whenever the request is not served from the cache, and caches nothing |

## Left out

- Filesystem mechanics (`fs.access`, `mkdir`, `readFile`, `writeFile`, `path.join`): the directory is a map from key to file content. A failure of `ensureCacheDir` is the `Unwritten` write fault.
- JSON (de)serialisation: stored data reads back exactly as written. A file that parses but does not have the entry's shape is not distinguished from a good entry; a file that does not parse is `Unparseable`.
- Hono's `Context`, `next()`, `c.json` and response headers: the handler is its `(status, body)` result. A response the middleware builds is only its data.
- Query-string parsing: a request carries its raw `search` and the value its `forceFetch` parameter parses to. The model does not check that this value agrees with `search`.
- The two views of the path: the blacklist test uses Hono's `c.req.path` and the key uses `new URL(c.req.url).pathname`. The model gives both the one `path` field, so it does not capture a percent-encoded path on which the two differ.
- `Math.floor(Date.now() / 1000)`: the two clock readings are integer parameters.
- `Number(process.env...)`: the maximum ages are integers. A non-numeric environment value, which makes every entry stale in the source, is not modelled.
- Characters: keys are sequences of Unicode characters. The source's regex works on UTF-16 code units, so it turns a character outside the Basic Multilingual Plane into two underscores, and the model turns it into one.
- Concurrency: the model is one request at a time, so two concurrent misses for the same key (last writer wins) are not modelled.
- `PonderService.FetchPonderData`: `upstreamCalls` counts invocations of `fetchFromPonder`. With no base URL that invocation makes no network request; `MissingBaseUrlPrecedesNetwork` states this separately.
- src/index.ts (routing, query schemas, the mapping of errors to status 500), src/utils/erc20-balance.ts (an on-chain multicall through an external client) and src/types/api.ts (an unused schema) are not part of this model.
- Logging: `console.log('Using cached data')` on a fetch-layer hit (src/utils/ponder-service.ts:58) is output only and is not modelled.
- The unused constant `DEFAULT_CACHE_TIME` (src/utils/ponder-service.ts:6) is not modelled.
