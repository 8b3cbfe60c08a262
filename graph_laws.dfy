/** What one `execute` can and cannot do, stated over `ExecuteSpec`, the
    function that `GraphService.Execute` is proved to follow. */
module GraphLaws {
  import opened Wrappers
  import opened Values
  import opened Text
  import opened Errors
  import Cache
  import Network
  import opened Graph

  /** The key `execute` looks up misses, or holds a falsy value. */
  predicate Misses(g: GraphService, m: map<string, Cache.Entry>, chainId: string, version: string,
                   request: Request, readNow: int)
  {
    var read := Cache.Lookup(m, g.KeyOf(chainId, version, request), readNow);
    !(read.value.Some? && Truthy(read.value.value))
  }

  /** A live, truthy cache entry is returned as it is: no transport call,
      no pause, and the cache is left as it was. */
  lemma CacheHitShortCircuits(g: GraphService, m: map<string, Cache.Entry>, start: nat, chainId: string,
                              version: string, request: Request, readNow: int, writeNow: int)
    requires var key := g.KeyOf(chainId, version, request);
             key in m && readNow <= m[key].expiresAt && Truthy(m[key].value)
    ensures var key := g.KeyOf(chainId, version, request);
            g.ExecuteSpec(m, start, chainId, version, request, readNow, writeNow)
            == ExecRun(Success(m[key].value), m, 0, [])
  {
    Cache.LookupSpec(m, g.KeyOf(chainId, version, request), readNow);
  }

  /** On a miss, an unsupported chain identifier is rejected before any
      transport call, and only the expired entry (if any) is gone. */
  lemma UnsupportedChainRejected(g: GraphService, m: map<string, Cache.Entry>, start: nat, chainId: string,
                                 version: string, request: Request, readNow: int, writeNow: int)
    requires Misses(g, m, chainId, version, request, readNow)
    requires chainId !in Network.SUPPORTED_CHAIN_IDS
    ensures g.ExecuteSpec(m, start, chainId, version, request, readNow, writeNow)
            == ExecRun(Failure(Error("Unsupported chainId: " + chainId)),
                       Cache.Lookup(m, g.KeyOf(chainId, version, request), readNow).cache, 0, [])
  {
  }

  /** A leg makes one to three transport calls, all of them recorded. */
  predicate LegCounted(leg: Leg) {
    1 <= leg.run.calls <= DEFAULT_RETRY_LIMIT && CountCalls(leg.trace) == leg.run.calls
  }

  /** Every leg of `execute` is counted. */
  lemma LegCalls(g: GraphService, start: nat, link: string, request: Request, useApiKey: bool)
    ensures LegCounted(g.RetryLeg(start, link, request, useApiKey))
  {
    var run := Retry(g.upstream.respond, g.stringify, start, DEFAULT_RETRY_LIMIT);
    RetrySpec(g.upstream.respond, g.stringify, start, DEFAULT_RETRY_LIMIT);
    RetryTraceShape(Call(link, Headers(useApiKey, g.authKey), RequestBody(request)), Pause(DEFAULT_DELAY), run.calls);
  }

  /** Every event of a leg is the call `post` or a pause of the default
      delay. */
  predicate LegEventsAre(leg: Leg, post: Event) {
    forall i :: 0 <= i < |leg.trace| ==> leg.trace[i] == post || leg.trace[i] == Pause(DEFAULT_DELAY)
  }

  /** Every call of a leg of `execute` posts the request to the leg's link
      with the leg's headers. */
  lemma LegEvents(g: GraphService, start: nat, link: string, request: Request, useApiKey: bool)
    ensures LegEventsAre(g.RetryLeg(start, link, request, useApiKey),
                         Call(link, Headers(useApiKey, g.authKey), RequestBody(request)))
  {
    var run := Retry(g.upstream.respond, g.stringify, start, DEFAULT_RETRY_LIMIT);
    RetryTraceShape(Call(link, Headers(useApiKey, g.authKey), RequestBody(request)), Pause(DEFAULT_DELAY), run.calls);
  }

  /** What a leg whose calls are numbered from `start` yields: at least one
      call; a success is the accepted body of its last call; a failure
      comes after all three calls and is the Too Many Requests exception or
      a plain Error. */
  predicate LegSound(respond: nat -> Outcome, stringify: Value -> string, start: nat, leg: Leg) {
    && 1 <= leg.run.calls
    && (leg.run.result.Success? ==>
          && leg.run.result == Attempt(respond, stringify, start, leg.run.calls - 1)
          && Accepted(leg.run.result.value))
    && (leg.run.result.Failure? ==>
          && leg.run.calls == DEFAULT_RETRY_LIMIT
          && (leg.run.result.error == TOO_MANY_REQUESTS <==>
                Attempt(respond, stringify, start, leg.run.calls - 1) == Failure(TOO_MANY_REQUESTS))
          && (leg.run.result.error != TOO_MANY_REQUESTS ==> leg.run.result.error == RETRIES_EXHAUSTED))
  }

  /** Every leg of `execute` is sound. */
  lemma LegResult(g: GraphService, start: nat, link: string, request: Request, useApiKey: bool)
    ensures LegSound(g.upstream.respond, g.stringify, start, g.RetryLeg(start, link, request, useApiKey))
  {
    var run := Retry(g.upstream.respond, g.stringify, start, DEFAULT_RETRY_LIMIT);
    RetrySpec(g.upstream.respond, g.stringify, start, DEFAULT_RETRY_LIMIT);
    assert NatToString(DEFAULT_RETRY_LIMIT) == "3";
    ToGraphResultCases(g.stringify, g.upstream.respond(start + (run.calls - 1)));
  }

  /** Composing sound legs: a success is the accepted body of the last call
      made and is stored under the key for `ttl`; a failure leaves the cache
      alone and is either the Too Many Requests exception or a plain Error. */
  lemma ComposeResult(respond: nat -> Outcome, stringify: Value -> string, start: nat,
                      m: map<string, Cache.Entry>, key: string, ttl: int, writeNow: int,
                      primary: Leg, fallback: Option<Leg>)
    requires LegSound(respond, stringify, start, primary)
    requires fallback.Some? ==> LegSound(respond, stringify, start + primary.run.calls, fallback.value)
    ensures var run := Compose(m, key, ttl, writeNow, primary, fallback);
            && (run.result.Success? ==>
                  && run.result == Attempt(respond, stringify, start, run.calls - 1)
                  && Accepted(run.result.value)
                  && run.cache == Cache.Store(m, key, run.result.value, ttl, writeNow))
            && (run.result.Failure? ==>
                  && run.cache == m
                  && (run.result.error == TOO_MANY_REQUESTS <==>
                        Attempt(respond, stringify, start, run.calls - 1) == Failure(TOO_MANY_REQUESTS))
                  && (run.result.error != TOO_MANY_REQUESTS ==> run.result.error == RETRIES_EXHAUSTED))
  {
    if primary.run.result.Failure? && fallback.Some? {
      var f := fallback.value;
      assert Attempt(respond, stringify, start + primary.run.calls, f.run.calls - 1)
          == Attempt(respond, stringify, start, primary.run.calls + f.run.calls - 1);
    }
  }

  /** After a miss on a supported chain: a success is the accepted body of
      the last call made and is stored under the key for `ttl`; a failure
      leaves the cache alone and is either the Too Many Requests exception
      or a plain Error. */
  lemma DispatchResult(g: GraphService, m: map<string, Cache.Entry>, key: string, start: nat,
                       link: string, chainId: string, request: Request, ttl: int, writeNow: int)
    ensures var run := g.Dispatch(m, key, start, link, chainId, request, ttl, writeNow);
            && (run.result.Success? ==>
                  && run.result == Attempt(g.upstream.respond, g.stringify, start, run.calls - 1)
                  && Accepted(run.result.value)
                  && run.cache == Cache.Store(m, key, run.result.value, ttl, writeNow))
            && (run.result.Failure? ==>
                  && run.cache == m
                  && (run.result.error == TOO_MANY_REQUESTS <==>
                        Attempt(g.upstream.respond, g.stringify, start, run.calls - 1) == Failure(TOO_MANY_REQUESTS))
                  && (run.result.error != TOO_MANY_REQUESTS ==> run.result.error == RETRIES_EXHAUSTED))
  {
    var primary := g.RetryLeg(start, link, request, false);
    LegResult(g, start, link, request, false);
    var fallback := g.ExplorerLeg(start, chainId, request, primary);
    if g.HasExplorer(chainId) {
      LegResult(g, start + primary.run.calls, g.ExplorerLink(chainId), request, true);
    }
    ComposeResult(g.upstream.respond, g.stringify, start, m, key, ttl, writeNow, primary, fallback);
  }

  /** Composing counted legs: one to six transport calls, all of them
      recorded; more than three exactly when the primary leg failed and
      the explorer leg ran. */
  lemma ComposeCalls(respond: nat -> Outcome, stringify: Value -> string, start: nat,
                     m: map<string, Cache.Entry>, key: string, ttl: int, writeNow: int,
                     primary: Leg, fallback: Option<Leg>)
    requires LegCounted(primary) && LegSound(respond, stringify, start, primary)
    requires fallback.Some? ==> LegCounted(fallback.value)
    ensures var run := Compose(m, key, ttl, writeNow, primary, fallback);
            && 1 <= run.calls <= 2 * DEFAULT_RETRY_LIMIT
            && CountCalls(run.trace) == run.calls
            && (run.calls > DEFAULT_RETRY_LIMIT <==> primary.run.result.Failure? && fallback.Some?)
  {
    if primary.run.result.Failure? && fallback.Some? {
      CountAppend(primary.trace, fallback.value.trace);
    }
  }

  /** After a miss on a supported chain: one to six transport calls, all of
      them recorded, and more than three exactly when the primary leg failed
      and the chain has an explorer link. */
  lemma DispatchCalls(g: GraphService, m: map<string, Cache.Entry>, key: string, start: nat,
                      link: string, chainId: string, request: Request, ttl: int, writeNow: int)
    ensures var run := g.Dispatch(m, key, start, link, chainId, request, ttl, writeNow);
            var primary := g.RetryLeg(start, link, request, false);
            && 1 <= run.calls <= 2 * DEFAULT_RETRY_LIMIT
            && CountCalls(run.trace) == run.calls
            && (run.calls > DEFAULT_RETRY_LIMIT <==> primary.run.result.Failure? && g.HasExplorer(chainId))
  {
    var primary := g.RetryLeg(start, link, request, false);
    LegCalls(g, start, link, request, false);
    LegResult(g, start, link, request, false);
    var fallback := g.ExplorerLeg(start, chainId, request, primary);
    if g.HasExplorer(chainId) {
      LegCalls(g, start + primary.run.calls, g.ExplorerLink(chainId), request, true);
    }
    ComposeCalls(g.upstream.respond, g.stringify, start, m, key, ttl, writeNow, primary, fallback);
    assert g.Dispatch(m, key, start, link, chainId, request, ttl, writeNow)
        == Compose(m, key, ttl, writeNow, primary, fallback);
  }

  /** After a miss on a supported chain: the primary leg's success is the
      result; its failure, after three calls, is the result when there is no
      explorer link; otherwise the explorer leg runs after the three primary
      calls and its outcome is the result. */
  lemma DispatchRouting(g: GraphService, m: map<string, Cache.Entry>, key: string, start: nat,
                        link: string, chainId: string, request: Request, ttl: int, writeNow: int)
    ensures var run := g.Dispatch(m, key, start, link, chainId, request, ttl, writeNow);
            var primary := g.RetryLeg(start, link, request, false);
            && (primary.run.result.Success? ==> run.result == primary.run.result && run.calls == primary.run.calls)
            && (primary.run.result.Failure? && !g.HasExplorer(chainId) ==>
                  run.result == primary.run.result && run.calls == DEFAULT_RETRY_LIMIT)
            && (primary.run.result.Failure? && g.HasExplorer(chainId) ==>
                  var fallback := g.RetryLeg(start + DEFAULT_RETRY_LIMIT, g.ExplorerLink(chainId), request, true);
                  run.result == fallback.run.result && run.calls == DEFAULT_RETRY_LIMIT + fallback.run.calls)
  {
    var primary := g.RetryLeg(start, link, request, false);
    LegResult(g, start, link, request, false);
  }

  /** Composing legs whose calls are `post` and `fallbackPost`: every event
      is a pause of the default delay, `post`, or, when the explorer leg is
      there, `fallbackPost`. */
  lemma ComposeEvents(m: map<string, Cache.Entry>, key: string, ttl: int, writeNow: int,
                      primary: Leg, fallback: Option<Leg>, post: Event, fallbackPost: Event)
    requires LegEventsAre(primary, post)
    requires fallback.Some? ==> LegEventsAre(fallback.value, fallbackPost)
    ensures var t := Compose(m, key, ttl, writeNow, primary, fallback).trace;
            forall i :: 0 <= i < |t| ==>
              t[i] == Pause(DEFAULT_DELAY) || t[i] == post || (fallback.Some? && t[i] == fallbackPost)
  {
    if primary.run.result.Failure? && fallback.Some? {
      var t := primary.trace + fallback.value.trace;
      forall i | 0 <= i < |t|
        ensures t[i] == Pause(DEFAULT_DELAY) || t[i] == post || t[i] == fallbackPost
      {
        if i < |primary.trace| {
          assert t[i] == primary.trace[i];
        } else {
          assert t[i] == fallback.value.trace[i - |primary.trace|];
        }
      }
    }
  }

  /** The events a dispatch from `link` may produce: a pause of the default
      delay, the request posted to the primary link without an Authorization
      header, or, when the chain has an explorer link, the request posted
      there with the bearer key. */
  predicate PermittedEvent(g: GraphService, link: string, chainId: string, request: Request, e: Event) {
    || e == Pause(DEFAULT_DELAY)
    || e == Call(link, Headers(false, g.authKey), RequestBody(request))
    || (g.HasExplorer(chainId) && e == Call(g.ExplorerLink(chainId), Headers(true, g.authKey), RequestBody(request)))
  }

  /** After a miss on a supported chain, every event of the dispatch is a
      permitted one: the primary link is never sent the API key, and the key
      goes only to the explorer link. */
  lemma DispatchEvents(g: GraphService, m: map<string, Cache.Entry>, key: string, start: nat,
                       link: string, chainId: string, request: Request, ttl: int, writeNow: int)
    ensures var run := g.Dispatch(m, key, start, link, chainId, request, ttl, writeNow);
            forall i :: 0 <= i < |run.trace| ==> PermittedEvent(g, link, chainId, request, run.trace[i])
  {
    var primary := g.RetryLeg(start, link, request, false);
    var post := Call(link, Headers(false, g.authKey), RequestBody(request));
    LegEvents(g, start, link, request, false);
    var fallback := g.ExplorerLeg(start, chainId, request, primary);
    var fallbackPost := if g.HasExplorer(chainId) then Call(g.ExplorerLink(chainId), Headers(true, g.authKey), RequestBody(request)) else post;
    if g.HasExplorer(chainId) {
      LegEvents(g, start + primary.run.calls, g.ExplorerLink(chainId), request, true);
    }
    ComposeEvents(m, key, ttl, writeNow, primary, fallback, post, fallbackPost);
  }

  /** Proof step: on a miss on a supported chain, `ExecuteSpec` unfolds to
      the dispatch from the cache the read left. */
  lemma ExecuteDispatches(g: GraphService, m: map<string, Cache.Entry>, start: nat, chainId: string,
                          version: string, request: Request, readNow: int, writeNow: int)
    requires Misses(g, m, chainId, version, request, readNow)
    requires chainId in Network.SUPPORTED_CHAIN_IDS
    ensures var key := g.KeyOf(chainId, version, request);
            g.ExecuteSpec(m, start, chainId, version, request, readNow, writeNow)
            == g.Dispatch(Cache.Lookup(m, key, readNow).cache, key, start,
                          g.PrimaryLink(g.networkUtils.GetLinkByChainId(chainId).value, version), chainId, request,
                          g.cacheService.GenerateExpirationTime(request.query), writeNow)
  {
  }

  /** Over a whole `execute`: at most six transport calls, all of them in
      the trace, and none exactly when the cache answers or the chain is
      not supported. */
  lemma ExecuteCalls(g: GraphService, m: map<string, Cache.Entry>, start: nat, chainId: string,
                     version: string, request: Request, readNow: int, writeNow: int)
    ensures var run := g.ExecuteSpec(m, start, chainId, version, request, readNow, writeNow);
            && run.calls <= 2 * DEFAULT_RETRY_LIMIT
            && CountCalls(run.trace) == run.calls
            && (run.calls == 0 <==> !Misses(g, m, chainId, version, request, readNow)
                                    || chainId !in Network.SUPPORTED_CHAIN_IDS)
  {
    if Misses(g, m, chainId, version, request, readNow) && chainId in Network.SUPPORTED_CHAIN_IDS {
      var key := g.KeyOf(chainId, version, request);
      var link := g.PrimaryLink(g.networkUtils.GetLinkByChainId(chainId).value, version);
      var ttl := g.cacheService.GenerateExpirationTime(request.query);
      DispatchCalls(g, Cache.Lookup(m, key, readNow).cache, key, start, link, chainId, request, ttl, writeNow);
      ExecuteDispatches(g, m, start, chainId, version, request, readNow, writeNow);
    }
  }

  /** Over a whole `execute`: a success that needed no call is the live
      cached value, and the cache is unchanged; a success that needed calls
      is stored under the key with the query's TTL; a failure changes the
      cache only by evicting the expired entry, and is the Too Many Requests
      exception exactly when the last call was answered with a 429, and
      otherwise a plain Error. */
  lemma ExecuteResult(g: GraphService, m: map<string, Cache.Entry>, start: nat, chainId: string,
                      version: string, request: Request, readNow: int, writeNow: int)
    ensures var run := g.ExecuteSpec(m, start, chainId, version, request, readNow, writeNow);
            var key := g.KeyOf(chainId, version, request);
            var read := Cache.Lookup(m, key, readNow);
            && (run.calls == 0 && run.result.Success? ==> read.value == Some(run.result.value) && run.cache == m)
            && (run.calls > 0 && run.result.Success? ==>
                  run.cache == Cache.Store(read.cache, key, run.result.value,
                                           g.cacheService.GenerateExpirationTime(request.query), writeNow))
            && (run.result.Failure? ==>
                  && run.cache == read.cache
                  && (run.result.error == TOO_MANY_REQUESTS || run.result.error.Error?))
            && (run.calls > 0 && run.result.Failure? ==>
                  && (run.result.error == TOO_MANY_REQUESTS <==>
                        Attempt(g.upstream.respond, g.stringify, start, run.calls - 1) == Failure(TOO_MANY_REQUESTS))
                  && (run.result.error != TOO_MANY_REQUESTS ==> run.result.error == RETRIES_EXHAUSTED))
  {
    var key := g.KeyOf(chainId, version, request);
    Cache.LookupSpec(m, key, readNow);
    if Misses(g, m, chainId, version, request, readNow) && chainId in Network.SUPPORTED_CHAIN_IDS {
      var link := g.PrimaryLink(g.networkUtils.GetLinkByChainId(chainId).value, version);
      var ttl := g.cacheService.GenerateExpirationTime(request.query);
      var read := Cache.Lookup(m, key, readNow);
      DispatchResult(g, read.cache, key, start, link, chainId, request, ttl, writeNow);
      DispatchCalls(g, read.cache, key, start, link, chainId, request, ttl, writeNow);
      ExecuteDispatches(g, m, start, chainId, version, request, readNow, writeNow);
    }
  }

  /** Over a whole `execute`: there are events only when a transport call
      was made, and then the chain is supported and every event is a pause
      of the default delay, the request posted to `${url}/${version}`
      without an Authorization header, or the request posted to the
      chain's explorer link with the bearer key. */
  lemma ExecuteEvents(g: GraphService, m: map<string, Cache.Entry>, start: nat, chainId: string,
                      version: string, request: Request, readNow: int, writeNow: int)
    ensures var run := g.ExecuteSpec(m, start, chainId, version, request, readNow, writeNow);
            && (run.trace == [] <==> run.calls == 0)
            && (forall i :: 0 <= i < |run.trace| ==>
                  && chainId in Network.SUPPORTED_CHAIN_IDS
                  && PermittedEvent(g, g.PrimaryLink(g.networkUtils.GetLinkByChainId(chainId).value, version),
                                    chainId, request, run.trace[i]))
  {
    if Misses(g, m, chainId, version, request, readNow) && chainId in Network.SUPPORTED_CHAIN_IDS {
      var key := g.KeyOf(chainId, version, request);
      var link := g.PrimaryLink(g.networkUtils.GetLinkByChainId(chainId).value, version);
      var ttl := g.cacheService.GenerateExpirationTime(request.query);
      var read := Cache.Lookup(m, key, readNow);
      DispatchEvents(g, read.cache, key, start, link, chainId, request, ttl, writeNow);
      DispatchCalls(g, read.cache, key, start, link, chainId, request, ttl, writeNow);
      ExecuteDispatches(g, m, start, chainId, version, request, readNow, writeNow);
    }
  }

  /** A response fetched from upstream is served from the cache, unchanged
      and without any transport call, by a repeat of the same request
      within its TTL. */
  lemma RepeatWithinTtlIsCached(g: GraphService, m: map<string, Cache.Entry>, start: nat, chainId: string,
                                version: string, request: Request, readNow: int, writeNow: int,
                                start2: nat, readNow2: int, writeNow2: int)
    requires var run := g.ExecuteSpec(m, start, chainId, version, request, readNow, writeNow);
             run.calls > 0 && run.result.Success? && Truthy(run.result.value)
    requires writeNow <= readNow2 <= writeNow + g.cacheService.GenerateExpirationTime(request.query)
    ensures var run := g.ExecuteSpec(m, start, chainId, version, request, readNow, writeNow);
            g.ExecuteSpec(run.cache, start2, chainId, version, request, readNow2, writeNow2)
            == ExecRun(run.result, run.cache, 0, [])
  {
    var run := g.ExecuteSpec(m, start, chainId, version, request, readNow, writeNow);
    var key := g.KeyOf(chainId, version, request);
    var read := Cache.Lookup(m, key, readNow);
    var ttl := g.cacheService.GenerateExpirationTime(request.query);
    ExecuteResult(g, m, start, chainId, version, request, readNow, writeNow);
    Cache.ReadYourWrite(read.cache, key, run.result.value, ttl, writeNow, readNow2);
  }

  /** The key preimage does not separate its parts: the Base chain with
      version "plasma-v1" and the Base Plasma chain with version "v1" share
      every cache key, although they resolve to different endpoints. */
  lemma KeyPreimageCollision(query: string)
    ensures "8453" in Network.SUPPORTED_CHAIN_IDS && "8453-plasma" in Network.SUPPORTED_CHAIN_IDS
    ensures KeyPreimage("8453", "plasma-v1", query) == KeyPreimage("8453-plasma", "v1", query)
  {
    assert "8453" + "-" + "plasma-v1" == "8453-plasma" + "-" + "v1";
  }

  /** Because of that collision, a live, truthy entry cached for a Base
      request with version "plasma-v1" answers the same request for Base
      Plasma with version "v1", with no transport call. */
  lemma CollidingChainsShareCache(g: GraphService, m: map<string, Cache.Entry>, start: nat,
                                  request: Request, readNow: int, writeNow: int)
    requires var key := g.KeyOf("8453", "plasma-v1", request);
             key in m && readNow <= m[key].expiresAt && Truthy(m[key].value)
    ensures var key := g.KeyOf("8453", "plasma-v1", request);
            g.ExecuteSpec(m, start, "8453-plasma", "v1", request, readNow, writeNow)
            == ExecRun(Success(m[key].value), m, 0, [])
  {
    KeyPreimageCollision(g.stringify(RequestBody(request)));
    CacheHitShortCircuits(g, m, start, "8453-plasma", "v1", request, readNow, writeNow);
  }

  /** In `a-b` with no dash in `a`, the first dash sits right after `a`. */
  lemma FirstDash(a: string, b: string)
    requires '-' !in a
    ensures (a + "-" + b)[|a|] == '-'
    ensures forall i :: 0 <= i < |a| ==> (a + "-" + b)[i] != '-'
  {
    assert forall i :: 0 <= i < |a| ==> (a + "-" + b)[i] == a[i];
  }

  /** Joining with a dash is injective when the left parts contain none. */
  lemma {:induction false} SplitAtDash(a: string, b: string, x: string, y: string)
    requires '-' !in a && '-' !in x
    requires a + "-" + b == x + "-" + y
    ensures a == x && b == y
  {
    var s := a + "-" + b;
    FirstDash(a, b);
    FirstDash(x, y);
    assert a == s[..|a|] == x;
    assert b == s[|a| + 1..] == y;
  }

  /** When neither the chain identifier nor the version contains a dash,
      the preimage determines all three parts, so distinct requests get
      distinct preimages. */
  lemma KeyPreimageInjective(chainId: string, version: string, query: string,
                             chainId2: string, version2: string, query2: string)
    requires '-' !in chainId && '-' !in version && '-' !in chainId2 && '-' !in version2
    requires KeyPreimage(chainId, version, query) == KeyPreimage(chainId2, version2, query2)
    ensures chainId == chainId2 && version == version2 && query == query2
  {
    assert chainId + "-" + version + "-" + query == chainId + "-" + (version + "-" + query);
    assert chainId2 + "-" + version2 + "-" + query2 == chainId2 + "-" + (version2 + "-" + query2);
    SplitAtDash(chainId, version + "-" + query, chainId2, version2 + "-" + query2);
    SplitAtDash(version, query, version2, query2);
  }
}
