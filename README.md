# graph-cache-service: a Dafny model of the request pipeline

graph-cache-service is a NestJS gateway. It forwards GraphQL queries to a
blockchain indexer chosen by chain identifier and caches the responses.
This project models the four parts of its request pipeline and proves what
each part promises:

- **the response cache** (`CacheService`): a map from key to a stored
  value and its absolute expiry time. `set` overwrites. `get` evicts
  lazily: an expired entry is deleted only when `get` finds it. A TTL policy
  picks 10 minutes for queries about user balances, and otherwise the
  configured `CACHE_TTL` or 120 minutes;
- **the endpoint resolver** (`NetworkUtils`): seven supported chain
  identifiers map to seven URL settings, and any other identifier throws;
- **the dispatcher** (`GraphService`): it computes a cache key and reads
  the cache, then resolves the primary URL. It calls the primary URL with
  three attempts and 3000 ms pauses between them. When every primary
  attempt fails and the chain has an explorer link, it tries the explorer
  with its bearer key and its own retry. A success is cached with the
  query's TTL;
- **the global exception filter** (`AllExceptionsFilter`): it turns a
  thrown value into a `{message, statusCode, timestamp, path}` reply and
  counts it.

State that the source changes in place is modelled as classes:
- `CacheService` holds the cache map.
- `Upstream` is the HTTP transport. It counts the calls it has served and
  keeps a ghost trace of calls and retry pauses.
- `Metrics` holds the error counter.

Each method is proved against a function of the old state:
- `Lookup` and `Store` for the cache;
- `Retry` for the retry loop;
- `ExecuteSpec` and `Dispatch` for `execute`;
- `Render` for the filter.

The lemmas about those functions state the pipeline's guarantees:
- a hit makes no call;
- an unsupported chain fails with no call;
- at most six calls are made, and each pause sits between two calls;
- the API key goes only to the explorer;
- which error surfaces, what is cached, and what the client sees.

Inputs the service reads from its surroundings become parameters:
- The wall clock becomes `readNow` and `writeNow`. The read and the write
  inside one `execute` may see different times.
- The transport is an oracle, `respond: nat -> Outcome`. It gives the
  outcome of the k-th call the transport serves.
- `sha256` and `JSON.stringify` are uninterpreted functions.
- `getExplorerLinkByChainId` is an uninterpreted function from chain
  identifier to an optional URL. `execute` calls it at
  src/graph/graph.service.ts:49, but src/utils/network.utils.ts does not
  define it.

Modules:
- `Wrappers`: `Option` and `Result`.
- `Text`: ASCII lower-casing, `includes`, and decimal rendering.
- `Values`: the JavaScript values involved, their truthiness, and property
  access.
- `Errors`: thrown values.
- `Cache`, `Network` and `Graph`: the three services.
- `GraphLaws`: the properties of `execute`.
- `ExceptionFilter`: the filter.
- `EndToEnd`: what a client sees when `execute` fails.

Points where the code behaves in a way a reader might not expect. The
model follows the code in each:
- **No query guard.** `execute` does not limit the number of top-level
  selections in a query, and neither does the model.
- **Unsupported chains give 500.** An unsupported chain identifier makes
  `getLinkByChainId` throw a plain `Error`. The filter renders that as
  500 "Unknown error", not as a client error (`EndToEnd.ExecuteFailureRendering`).
- **Expiry is inclusive.** `get` treats an entry as live while
  `now <= expiresAt`, so a read at the expiry instant is still a hit
  (`Cache.LookupSpec`).
- **Any truthy `errors` fails.** `executeToGraph` fails on any truthy
  `errors` member, including an empty array (`Graph.EmptyErrorsListFails`).
- **Cache keys can collide.** The key text joins chain, version and request
  with "-". So ("8453", "plasma-v1") and ("8453-plasma", "v1") share every
  key (`GraphLaws.KeyPreimageCollision`), and a response cached for one
  is served to the other (`GraphLaws.CollidingChainsShareCache`).

## Model

| member | source | states |
|---|---|---|
| Cache.LookupSpec | src/cache/cache.service.ts:24-34 | `get` hits exactly when the key is present and `now <= expiresAt`, so a read at the expiry instant still hits. A hit returns the stored value and leaves the map unchanged. An absent key leaves the map unchanged. An expired entry is removed. No other key is touched. |
| Cache.StoreSpec | src/cache/cache.service.ts:19-22 | After `set`, the key holds exactly the value with expiry `now + ttl`, whatever was there before. The key set grows by at most this key, and every other entry is unchanged. |
| Cache.ReadYourWrite | src/cache/cache.service.ts:19-34 | Reading a key at any time from the write to `now + ttl` returns the written value and evicts nothing. |
| Cache.SomeIncluded | src/cache/cache.service.ts:37 | `some(entity => s.includes(entity))` is true exactly when one of the markers occurs in `s`. |
| Cache.ExcludedIffUserBalance | src/cache/cache.service.ts:6-11 | The lower-cased query mentions one of the four markers exactly when it contains "userbalance". |
| Cache.ConfiguredTtl | src/cache/cache.service.ts:40 | `CACHE_TTL \|\| DEFAULT_TTL`: a set, non-zero value is used. A missing or zero value falls back to 7200000 ms. |
| Cache.CacheService.constructor | src/cache/cache.service.ts:14-17 | The cache starts empty. |
| Cache.CacheService.Set | src/cache/cache.service.ts:19-22 | The new map is `Store` of the old map (see StoreSpec). |
| Cache.CacheService.Get | src/cache/cache.service.ts:24-34 | The returned value and the new map are `Lookup` of the old map (see LookupSpec). |
| Cache.CacheService.ExpirationTimePolicy | src/cache/cache.service.ts:36-41 | A query containing "userbalance" in any letter case gets 600000 ms. Every other query gets the configured TTL, or the default. |
| Text.ToLower | src/cache/cache.service.ts:37 | Lower-casing keeps the length, maps each character by ASCII lower-casing, and leaves no upper-case ASCII letter. |
| Text.Includes | src/cache/cache.service.ts:37 | The left-to-right scan is true exactly when `sub` occurs in `s`. |
| Text.NatToStringSpec | src/graph/graph.service.ts:117-119 | `${n}` is a non-empty string of digits with value `n` and no leading zero. |
| Text.NatToStringInjective | src/graph/graph.service.ts:117-119 | Distinct numbers render as distinct decimal strings. |
| Graph.ExhaustedNamesLimit | src/graph/graph.service.ts:104-119 | Apart from the 429 case, the exhaustion error names the limit: two limits give the same error exactly when they are equal. |
| Values.MemberSpec | src/graph/graph.service.ts:142 | Reading `.errors` throws exactly on `undefined` or `null`. On an object it gives the field, or `undefined` when the field is absent. |
| Network.NetworkUtils.GetLinkByChainId | src/utils/network.utils.ts:19-38 | Success exactly on the seven identifiers. Each identifier gives its own setting. Anything else fails with "Unsupported chainId: " followed by the identifier. |
| Network.FromConfig | src/utils/network.utils.ts:6-17 | The resolver keeps the explorer lookup it was given. |
| Network.ResolvesFromSettings | src/utils/network.utils.ts:6-38 | The table's domain is exactly the supported set. A resolver built from a configuration sends each supported identifier to the value of its own setting, and rejects every other identifier. The match is exact, with no trimming or case folding. |
| Graph.HeadersSpec | src/graph/graph.service.ts:132-138 | Content-Type is always `application/json`. Authorization is present exactly when the API key is used, and is then `Bearer ` followed by the key. No other header is sent. |
| Graph.ToGraphResultCases | src/graph/graph.service.ts:140-157 | A call succeeds exactly when a body arrived whose `errors` is readable and falsy, and then yields that body. An upstream 429 becomes the Too Many Requests HttpException, and only that. A body with errors fails with "GraphQL Errors: " followed by the serialised errors. Every other failure is a plain Error. |
| Graph.EmptyErrorsListFails | src/graph/graph.service.ts:142-146 | A body whose `errors` is an empty array is a failure, with message "GraphQL Errors: " followed by the serialised empty array. |
| Graph.RetryFromSpec | src/graph/graph.service.ts:95-123 | From any number of failed attempts, the loop makes at least one more call and at most `retryLimit` in all. Every call before the last failed. A success is the last call's result. A failure follows exactly `retryLimit` calls and is `Exhausted` of the last error. |
| Graph.RetrySpec | src/graph/graph.service.ts:86-124 | At most `retryLimit` calls, and the first success is returned. On exhaustion the result is the 429 HttpException exactly when the last attempt failed with 429. Otherwise it is "Failed to execute request after N attempts". With `retryLimit <= 0` there is no call and the result is `undefined`. |
| Graph.RoundsShape | src/graph/graph.service.ts:96-121 | `n` failed rounds alternate call and pause, with `n` of each. |
| Graph.RetryTraceShape | src/graph/graph.service.ts:96-121 | A run with `calls` calls records exactly that many calls and one pause fewer. It starts and ends with a call, and two calls are never adjacent, so there is no pause after the last attempt. |
| Graph.Upstream.constructor | src/graph/graph.service.ts:140 | The transport starts at call 0 with an empty trace. |
| Graph.Upstream.Post | src/graph/graph.service.ts:140 | A call yields the oracle's outcome for the next call number and appends the call to the trace. |
| Graph.Upstream.Sleep | src/graph/graph.service.ts:121 | A pause appends the pause to the trace. |
| Graph.GraphService.constructor | src/graph/graph.service.ts:12-19 | The service keeps its collaborators and the `EXPLORER_API_KEY` setting. |
| Graph.GraphService.ExecuteToGraph | src/graph/graph.service.ts:126-158 | Exactly one call, posted with `Headers(useApiKey)` and the request body. The result is the classified outcome of that call (see ToGraphResultCases). |
| Graph.GraphService.ExecuteWithRetry | src/graph/graph.service.ts:86-124 | The result and the number of calls are `Retry`'s (see RetrySpec). The trace grows by `RetryTrace`: one call per attempt and one pause of `delay` between attempts (see RetryTraceShape). |
| Graph.GraphService.Execute | src/graph/graph.service.ts:21-84 | The result, the new cache, the calls served and the trace follow `ExecuteSpec` of the old state. |
| Graph.GraphService.Forward | src/graph/graph.service.ts:40-83 | After a miss, the result, the new cache, the calls and the trace follow `Dispatch` of the old state. |
| GraphLaws.CacheHitShortCircuits | src/graph/graph.service.ts:29-37 | A live, truthy entry is returned with no call and no event, and the cache is left as it was. |
| GraphLaws.UnsupportedChainRejected | src/graph/graph.service.ts:39-41 | On a miss, an unsupported chain fails with "Unsupported chainId: …". There is no call, no fallback and no write, and only the expired entry (if any) is gone. |
| GraphLaws.LegCalls | src/graph/graph.service.ts:92-104 | A leg of `execute` makes one to three calls, and all of them are in its trace. |
| GraphLaws.LegEvents | src/graph/graph.service.ts:96-121 | Every event of a leg is its own call or a 3000 ms pause. |
| GraphLaws.LegResult | src/graph/graph.service.ts:86-124 | A leg's success is the accepted body of its last call. Its failure comes after exactly three calls. That failure is 429 exactly when the last call was answered with 429, and otherwise "Failed to execute request after 3 attempts". |
| GraphLaws.ComposeResult | src/graph/graph.service.ts:41-78 | Composing such legs: a success is the accepted body of the last call made and is stored under the key for the TTL. A failure leaves the cache alone. It is 429 exactly when the last call was a 429, and otherwise the exhaustion Error. |
| GraphLaws.DispatchResult | src/graph/graph.service.ts:41-78 | The same for an actual dispatch: what is cached, on success only, and which error surfaces. |
| GraphLaws.ComposeCalls | src/graph/graph.service.ts:41-76 | Composed legs make one to six calls, all recorded. There are more than three exactly when the primary failed and the explorer leg ran. |
| GraphLaws.DispatchCalls | src/graph/graph.service.ts:41-76 | A dispatch makes one to six calls. There are more than three exactly when the primary leg failed and the chain has an explorer link. |
| GraphLaws.DispatchRouting | src/graph/graph.service.ts:45-76 | A primary success is the result. A primary failure, after three calls, is rethrown when there is no explorer link. Otherwise the explorer leg runs from call three on and its outcome is the result: the primary's error is dropped. |
| GraphLaws.ComposeEvents | src/graph/graph.service.ts:41-76 | Composed legs only produce their own calls and default pauses. |
| GraphLaws.DispatchEvents | src/graph/graph.service.ts:44-64 | Every event is a 3000 ms pause, or the request posted to the primary link without Authorization, or (only when the explorer link exists) the request posted to the explorer with the bearer key. |
| GraphLaws.ExecuteCalls | src/graph/graph.service.ts:21-84 | One `execute` makes at most six calls, all recorded. It makes none exactly when the cache answers or the chain is unsupported. |
| GraphLaws.ExecuteResult | src/graph/graph.service.ts:21-84 | A success with no call is the live cached value, and the cache is unchanged. A success with calls is stored under the key with `generateExpirationTime(query)`, and the returned value is the stored one. A failure writes nothing beyond the eviction. With calls, a failure is 429 exactly when the last call was a 429, and otherwise "Failed to execute request after 3 attempts". |
| GraphLaws.ExecuteEvents | src/graph/graph.service.ts:21-84 | One `execute` has events exactly when it made a transport call. Then the chain is supported, and every event is one of three: a 3000 ms pause, the request posted to `${url}/${version}` without Authorization, or the request posted to the chain's explorer link with the bearer key. |
| GraphLaws.RepeatWithinTtlIsCached | src/graph/graph.service.ts:29-78 | After a fetched, truthy response, the same request within its TTL is answered from the cache with no call. |
| GraphLaws.KeyPreimageCollision | src/graph/graph.service.ts:160-163 | The preimage does not separate its parts: ("8453", "plasma-v1") and ("8453-plasma", "v1") give the same key. |
| GraphLaws.CollidingChainsShareCache | src/graph/graph.service.ts:29-37 | A live, truthy entry cached for Base with version "plasma-v1" is returned, with no call and the cache unchanged, to the same request for Base Plasma with version "v1". |
| GraphLaws.SplitAtDash | src/graph/graph.service.ts:161 | Joining with "-" is injective when the left part has no dash. |
| GraphLaws.KeyPreimageInjective | src/graph/graph.service.ts:160-163 | With dash-free chain identifiers and versions, equal preimages mean equal chain, version and serialised request. |
| ExceptionFilter.Render | src/metrics/exception.filter.ts:22-32 | An HttpException gives its own status and message. Anything else gives 500 and "Unknown error". The body's `statusCode` is the status, `path` is the request URL, and `timestamp` is the given time. |
| ExceptionFilter.Metrics.constructor | src/metrics/metrics.service.ts:6-20 | The error counter starts at zero. |
| ExceptionFilter.Metrics.IncrementErrorCount | src/metrics/metrics.service.ts:22-24 | The error counter goes up by one. |
| ExceptionFilter.AllExceptionsFilter.constructor | src/metrics/exception.filter.ts:13 | The filter keeps its metrics service. |
| ExceptionFilter.AllExceptionsFilter.Catch | src/metrics/exception.filter.ts:15-33 | The error counter goes up by exactly one, and the reply is `Render` of the exception (see Render). |
| EndToEnd.ExecuteFailureRendering | src/metrics/exception.filter.ts:22-25 | A failed `execute` reaches the client as 429 or 500, and never anything else. It is 429 "Too Many Requests" exactly when the last call was answered with 429, and otherwise 500 "Unknown error". A failure with no call is an unsupported chain. |
| EndToEnd.ExhaustionRendering | src/graph/graph.service.ts:104-119 | An exhausted retry loop made `retryLimit` calls. Its reply is exactly 429 "Too Many Requests" when the last attempt was a 429, and exactly 500 "Unknown error" otherwise. |

## Left out

- Metrics calls inside `execute` (`incrementGraphRequestCount`, `incrementGraphChainRequestCount`, `incrementGraphInRequestCount`, `incrementGraphErrorCount`): they are counter side effects with no influence on the result. The filter's `incrementErrorCount` is modelled.
- Logging: every `Logger` call is omitted.
- Time and concurrency: the pause is an event in the trace, not a real delay. Interleavings of concurrent requests over the shared cache and transport are not modelled.
- Wall clock: `Date.now()` becomes the `readNow`/`writeNow` parameters, and `new Date().toISOString()` a `timestamp` parameter.
- HTTP transport: `axios.post` is an oracle indexed by call number. It can respond with a body or reject, with or without an HTTP status.
- `sha256` and `JSON.stringify`: they are uninterpreted. Key distinctness is stated only at the level of the hashed text (KeyPreimageInjective, KeyPreimageCollision).
- Network.NetworkUtils.GetExplorerLinkByChainId: this method is not defined in src/utils/network.utils.ts. It is an uninterpreted function that cannot throw. A throwing implementation would propagate its own error through the inner `catch` at src/graph/graph.service.ts:69-75.
- Thrown values: every thrown value is an `HttpException` with status and message, or an `Error` with a message. Values thrown by the framework, and non-Error values, are not modelled.
- Text.ToLower: it lower-cases only the ASCII letters. `toLowerCase` also folds other Unicode letters, which cannot matter for the ASCII markers but may change other positions of the query.
- Values: numbers are integers, and only the value shapes the gateway inspects are modelled. The cache stores the response body as a value, not as the `string` its TypeScript type announces.
- Cache.ConfiguredTtl: `CACHE_TTL` is read as an optional integer. Settings taken from the environment are text, and `Date.now() + ttl` on a text TTL concatenates instead of adding. The result is a long digit string, so `expiresAt < Date.now()` never holds, and entries cached with the configured TTL (every query that does not mention "userbalance") never expire. That coercion is not modelled.
- Graph.GraphService.ExecuteWithRetry: `retryLimit` and `delay` are parameters. `execute` always passes the defaults 3 and 3000, so the lemmas about `execute` fix those values.
- MetricsService's other counters, the metrics module wiring, and application bootstrap are outside the request pipeline.
