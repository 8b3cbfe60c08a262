/** The request dispatcher: cache lookup, primary call with bounded
    fixed-delay retry, explorer fallback with its own retry, cache write.
    The HTTP transport is an oracle that gives one outcome per call, in call
    order; the hash and the JSON serialiser are left uninterpreted. */
module Graph {
  import opened Wrappers
  import opened Values
  import opened Text
  import opened Errors
  import Cache
  import Network

  /** The default `retryLimit` and `delay` (ms) of `executeWithRetry`, used
      by both calls in `execute`. */
  const DEFAULT_RETRY_LIMIT: int := 3
  const DEFAULT_DELAY: int := 3000

  /** `new HttpException('Too Many Requests', HttpStatus.TOO_MANY_REQUESTS)`. */
  const TOO_MANY_REQUESTS: Thrown := HttpException(429, "Too Many Requests")

  /** What `executeWithRetry` throws, with the default limit, when its last
      failure was not a 429. */
  const RETRIES_EXHAUSTED: Thrown := Error("Failed to execute request after 3 attempts")

  /** An inbound GraphQL request; `variables` is `Undefined` when absent. */
  datatype Request = Request(query: string, variables: Value)

  /** The request object, as posted and as serialised into the cache key. */
  function RequestBody(request: Request): Value {
    Obj(map["query" := Str(request.query), "variables" := request.variables])
  }

  /** What one `axios.post` call yields: a response body, or a rejection
      carrying the upstream HTTP status when a response arrived. */
  datatype Outcome =
    | Responded(data: Value)
    | Rejected(status: Option<int>, message: string)

  /** Observable steps of a dispatch: a transport call, a retry pause. */
  datatype Event =
    | Call(link: string, headers: map<string, string>, body: Value)
    | Pause(ms: int)

  /** Template interpolation `${s}` of a setting that may be undefined. */
  function Interpolate(s: Option<string>): string {
    match s
    case Some(v) => v
    case None => "undefined"
  }

  /** The headers `executeToGraph` sends. */
  function Headers(useApiKey: bool, authKey: Option<string>): map<string, string> {
    var h := map["Content-Type" := "application/json"];
    if useApiKey then h["Authorization" := "Bearer " + Interpolate(authKey)] else h
  }

  /** Every call declares a JSON body; the Authorization header is present
      exactly when the API key is to be used, and then carries the key (the
      text "undefined" when it is not configured) as a bearer token; no other
      header is sent. */
  lemma HeadersSpec(useApiKey: bool, authKey: Option<string>)
    ensures var h := Headers(useApiKey, authKey);
            && "Content-Type" in h && h["Content-Type"] == "application/json"
            && ("Authorization" in h <==> useApiKey)
            && (useApiKey ==> h["Authorization"] == "Bearer " + Interpolate(authKey))
            && h.Keys <= {"Content-Type", "Authorization"}
  {
  }

  /** A response body counts as data: reading its `errors` property does not
      throw and gives a falsy value. */
  predicate Accepted(data: Value) {
    var errors := Member(data, "errors");
    errors.Success? && !Truthy(errors.value)
  }

  /** The result of `executeToGraph` for one transport outcome. */
  function ToGraphResult(stringify: Value -> string, outcome: Outcome): Result<Value, Thrown> {
    match outcome
    case Responded(data) =>
      (match Member(data, "errors")
       case Failure(typeError) => Failure(Error(typeError))
       case Success(errors) =>
         if Truthy(errors) then Failure(Error("GraphQL Errors: " + stringify(errors))) else Success(data))
    case Rejected(status, message) =>
      if status == Some(429) then Failure(TOO_MANY_REQUESTS) else Failure(Error(message))
  }

  /** A body with GraphQL errors (or one whose `errors` cannot be read) is a
      failure, an upstream 429 becomes the Too Many Requests exception, and
      every other failure is a plain Error without a status. */
  lemma ToGraphResultCases(stringify: Value -> string, outcome: Outcome)
    ensures var r := ToGraphResult(stringify, outcome);
            && (r.Success? <==> outcome.Responded? && Accepted(outcome.data))
            && (r.Success? ==> r.value == outcome.data)
            && (r == Failure(TOO_MANY_REQUESTS) <==> outcome.Rejected? && outcome.status == Some(429))
            && (r.Failure? ==> r.error == TOO_MANY_REQUESTS || r.error.Error?)
            && (outcome.Responded? && Member(outcome.data, "errors").Success? && !Accepted(outcome.data) ==>
                  r == Failure(Error("GraphQL Errors: " + stringify(Member(outcome.data, "errors").value))))
  {
  }

  /** The check is on truthiness, not on emptiness: a body whose `errors`
      is an empty array is still a failure. */
  lemma EmptyErrorsListFails(stringify: Value -> string, data: map<string, Value>)
    requires "errors" in data && data["errors"] == Arr([])
    ensures ToGraphResult(stringify, Responded(Obj(data))) == Failure(Error("GraphQL Errors: " + stringify(Arr([]))))
  {
  }

  /** The classified result of transport call number `start + j`. */
  function Attempt(respond: nat -> Outcome, stringify: Value -> string, start: nat, j: nat): Result<Value, Thrown> {
    ToGraphResult(stringify, respond(start + j))
  }

  /** The error `executeWithRetry` throws when its last attempt failed with
      `last`. */
  function Exhausted(last: Thrown, retryLimit: nat): Thrown {
    if last.HttpException? && last.status == 429 then TOO_MANY_REQUESTS
    else Error("Failed to execute request after " + NatToString(retryLimit) + " attempts")
  }

  /** Unless it is the 429 exception, the exhaustion error names the limit:
      two limits give the same error exactly when they are equal. */
  lemma ExhaustedNamesLimit(last: Thrown, m: nat, n: nat)
    requires !(last.HttpException? && last.status == 429)
    ensures Exhausted(last, m) == Exhausted(last, n) <==> m == n
  {
    if Exhausted(last, m) == Exhausted(last, n) {
      var prefix := "Failed to execute request after ";
      var a, b := NatToString(m), NatToString(n);
      var s := prefix + a + " attempts";
      assert s == prefix + b + " attempts";
      assert |a| == |b|;
      assert a == s[|prefix|..|prefix| + |a|];
      assert b == s[|prefix|..|prefix| + |b|];
      NatToStringInjective(m, n);
    }
  }

  /** A run of the retry loop: its result and how many transport calls it made. */
  datatype RetryRun = RetryRun(result: Result<Value, Thrown>, calls: nat)

  /** The retry loop from the point where `attempts` calls have failed. */
  function RetryFrom(respond: nat -> Outcome, stringify: Value -> string, start: nat, retryLimit: int, attempts: nat): RetryRun
    requires attempts < retryLimit
    decreases retryLimit - attempts
  {
    var result := Attempt(respond, stringify, start, attempts);
    if result.Success? then RetryRun(result, attempts + 1)
    else if attempts + 1 >= retryLimit then RetryRun(Failure(Exhausted(result.error, retryLimit)), attempts + 1)
    else RetryFrom(respond, stringify, start, retryLimit, attempts + 1)
  }

  /** `executeWithRetry` with transport calls numbered from `start`. */
  function Retry(respond: nat -> Outcome, stringify: Value -> string, start: nat, retryLimit: int): RetryRun {
    if retryLimit <= 0 then RetryRun(Success(Undefined), 0)
    else RetryFrom(respond, stringify, start, retryLimit, 0)
  }

  /** From `attempts` failed calls on, the loop makes at least one more call
      and at most `retryLimit` in all, stops at the first success and returns
      it, and otherwise fails after exactly `retryLimit` calls. */
  lemma {:induction false} RetryFromSpec(respond: nat -> Outcome, stringify: Value -> string, start: nat, retryLimit: int, attempts: nat)
    requires attempts < retryLimit
    decreases retryLimit - attempts
    ensures var run := RetryFrom(respond, stringify, start, retryLimit, attempts);
            && attempts < run.calls <= retryLimit
            && (forall j :: attempts <= j < run.calls - 1 ==> Attempt(respond, stringify, start, j).Failure?)
            && (run.result.Success? ==> run.result == Attempt(respond, stringify, start, run.calls - 1))
            && (run.result.Failure? ==>
                  && run.calls == retryLimit
                  && Attempt(respond, stringify, start, retryLimit - 1).Failure?
                  && run.result.error == Exhausted(Attempt(respond, stringify, start, retryLimit - 1).error, retryLimit))
  {
    var result := Attempt(respond, stringify, start, attempts);
    if result.Failure? && attempts + 1 < retryLimit {
      RetryFromSpec(respond, stringify, start, retryLimit, attempts + 1);
      assert RetryFrom(respond, stringify, start, retryLimit, attempts)
          == RetryFrom(respond, stringify, start, retryLimit, attempts + 1);
    }
  }

  /** `executeWithRetry` makes at most `retryLimit` transport calls and
      returns the first success; when every allowed call fails it throws the
      Too Many Requests exception if the last failure was a 429, and
      otherwise "Failed to execute request after N attempts". With no
      attempts allowed the loop never runs and the call yields `undefined`. */
  lemma RetrySpec(respond: nat -> Outcome, stringify: Value -> string, start: nat, retryLimit: int)
    ensures var run := Retry(respond, stringify, start, retryLimit);
            && (retryLimit <= 0 ==> run == RetryRun(Success(Undefined), 0))
            && (retryLimit > 0 ==> 0 < run.calls <= retryLimit)
            && (forall j :: 0 <= j < run.calls - 1 ==> Attempt(respond, stringify, start, j).Failure?)
            && (retryLimit > 0 && run.result.Success? ==> run.result == Attempt(respond, stringify, start, run.calls - 1))
            && (run.result.Failure? ==>
                  && run.calls == retryLimit
                  && (forall j :: 0 <= j < retryLimit ==> Attempt(respond, stringify, start, j).Failure?)
                  && (run.result.error == TOO_MANY_REQUESTS <==>
                        Attempt(respond, stringify, start, retryLimit - 1) == Failure(TOO_MANY_REQUESTS))
                  && (run.result.error != TOO_MANY_REQUESTS ==>
                        run.result.error == Error("Failed to execute request after " + NatToString(retryLimit) + " attempts")))
  {
    if retryLimit > 0 {
      RetryFromSpec(respond, stringify, start, retryLimit, 0);
      var last := Attempt(respond, stringify, start, retryLimit - 1);
      ToGraphResultCases(stringify, respond(start + (retryLimit - 1)));
    }
  }

  /** `n` failed attempts, each followed by its pause. */
  function Rounds(post: Event, sleep: Event, n: nat): seq<Event> {
    if n == 0 then [] else Rounds(post, sleep, n - 1) + [post, sleep]
  }

  /** The events of a retry run that made `calls` transport calls. */
  function RetryTrace(post: Event, sleep: Event, calls: nat): seq<Event> {
    if calls == 0 then [] else Rounds(post, sleep, calls - 1) + [post]
  }

  function CountCalls(t: seq<Event>): nat {
    if t == [] then 0 else CountCalls(t[..|t| - 1]) + (if t[|t| - 1].Call? then 1 else 0)
  }

  function CountPauses(t: seq<Event>): nat {
    if t == [] then 0 else CountPauses(t[..|t| - 1]) + (if t[|t| - 1].Pause? then 1 else 0)
  }

  lemma {:induction false} CountAppend(a: seq<Event>, b: seq<Event>)
    ensures CountCalls(a + b) == CountCalls(a) + CountCalls(b)
    ensures CountPauses(a + b) == CountPauses(a) + CountPauses(b)
    decreases |b|
  {
    if b != [] {
      assert (a + b)[..|a + b| - 1] == a + b[..|b| - 1];
      CountAppend(a, b[..|b| - 1]);
    } else {
      assert a + b == a;
    }
  }

  lemma {:induction false} RoundsShape(post: Event, sleep: Event, n: nat)
    requires post.Call? && sleep.Pause?
    ensures var t := Rounds(post, sleep, n);
            && |t| == 2 * n
            && CountCalls(t) == n && CountPauses(t) == n
            && (forall i :: 0 <= i < |t| ==> t[i] == post || t[i] == sleep)
            && (forall i :: 0 <= i < |t| - 1 ==> t[i] != t[i + 1])
            && (n > 0 ==> t[0] == post && t[|t| - 1] == sleep)
  {
    if n > 0 {
      RoundsShape(post, sleep, n - 1);
      CountAppend(Rounds(post, sleep, n - 1), [post, sleep]);
      assert [post, sleep][..1] == [post];
      assert [post][..0] == [];
      assert CountCalls([post]) == 1 && CountPauses([post]) == 0;
    }
  }

  /** A retry run alternates call, pause, call, ..., call: `calls` transport
      calls, one pause between each two of them and none after the last. */
  lemma RetryTraceShape(post: Event, sleep: Event, calls: nat)
    requires post.Call? && sleep.Pause?
    ensures var t := RetryTrace(post, sleep, calls);
            && CountCalls(t) == calls
            && CountPauses(t) == (if calls == 0 then 0 else calls - 1)
            && (forall i :: 0 <= i < |t| ==> t[i] == post || t[i] == sleep)
            && (forall i :: 0 <= i < |t| - 1 ==> t[i] != t[i + 1])
            && (calls > 0 ==> t[0] == post && t[|t| - 1] == post)
  {
    if calls > 0 {
      var rounds := Rounds(post, sleep, calls - 1);
      var t := rounds + [post];
      assert t == RetryTrace(post, sleep, calls);
      RoundsShape(post, sleep, calls - 1);
      CountAppend(rounds, [post]);
      assert [post][..0] == [];
      forall i | 0 <= i < |t|
        ensures t[i] == post || t[i] == sleep
      {
        if i < |rounds| {
          assert t[i] == rounds[i];
        }
      }
      forall i | 0 <= i < |t| - 1
        ensures t[i] != t[i + 1]
      {
        assert t[i] == rounds[i];
        if i + 1 < |rounds| {
          assert t[i + 1] == rounds[i + 1];
        }
      }
    }
  }

  /** The HTTP transport: call number `k` (counted from the construction of
      the transport) yields `respond(k)`; `trace` records every call and
      every pause in order. */
  class Upstream {
    const respond: nat -> Outcome
    var served: nat
    ghost var trace: seq<Event>

    constructor(respond: nat -> Outcome)
      ensures this.respond == respond && served == 0 && trace == []
    {
      this.respond := respond;
      served := 0;
      trace := [];
    }

    /** `axios.post(link, body, { headers })`. */
    method Post(link: string, body: Value, headers: map<string, string>) returns (outcome: Outcome)
      modifies this`served, this`trace
      ensures outcome == respond(old(served))
      ensures served == old(served) + 1
      ensures trace == old(trace) + [Call(link, headers, body)]
    {
      outcome := respond(served);
      served := served + 1;
      trace := trace + [Call(link, headers, body)];
    }

    /** `await new Promise((resolve) => setTimeout(resolve, ms))`. */
    method Sleep(ms: int)
      modifies this`trace
      ensures trace == old(trace) + [Pause(ms)]
    {
      trace := trace + [Pause(ms)];
    }
  }

  /** The observable effect of one `execute`: its result, the cache it
      leaves, and the transport calls and pauses it made. */
  datatype ExecRun = ExecRun(result: Result<Value, Thrown>, cache: map<string, Cache.Entry>, calls: nat, trace: seq<Event>)

  /** One `executeWithRetry` inside `execute`: the run and its events. */
  datatype Leg = Leg(run: RetryRun, trace: seq<Event>)

  class GraphService {
    const networkUtils: Network.NetworkUtils
    const cacheService: Cache.CacheService
    const upstream: Upstream
    /** The `EXPLORER_API_KEY` setting. */
    const authKey: Option<string>
    /** `sha256` as a lower-case hex digest. */
    const sha256: string -> string
    /** `JSON.stringify`. */
    const stringify: Value -> string

    constructor(networkUtils: Network.NetworkUtils, cacheService: Cache.CacheService, upstream: Upstream,
                authKey: Option<string>, sha256: string -> string, stringify: Value -> string)
      ensures this.networkUtils == networkUtils && this.cacheService == cacheService && this.upstream == upstream
      ensures this.authKey == authKey && this.sha256 == sha256 && this.stringify == stringify
    {
      this.networkUtils := networkUtils;
      this.cacheService := cacheService;
      this.upstream := upstream;
      this.authKey := authKey;
      this.sha256 := sha256;
      this.stringify := stringify;
    }

    /** `generateKey`: the digest of `${chainId}-${version}-${query}`. */
    function GenerateKey(chainId: string, version: string, query: string): string {
      sha256(KeyPreimage(chainId, version, query))
    }

    function KeyOf(chainId: string, version: string, request: Request): string {
      GenerateKey(chainId, version, stringify(RequestBody(request)))
    }

    /** The link of the primary endpoint, `${url}/${version}`. */
    function PrimaryLink(url: Option<string>, version: string): string {
      Interpolate(url) + "/" + version
    }

    /** `executeToGraph`: one transport call, classified. */
    method ExecuteToGraph(link: string, request: Request, useApiKey: bool) returns (r: Result<Value, Thrown>)
      modifies upstream`served, upstream`trace
      ensures r == Attempt(upstream.respond, stringify, old(upstream.served), 0)
      ensures upstream.served == old(upstream.served) + 1
      ensures upstream.trace == old(upstream.trace) + [Call(link, Headers(useApiKey, authKey), RequestBody(request))]
    {
      var headers: map<string, string> := map["Content-Type" := "application/json"];
      if useApiKey {
        headers := headers["Authorization" := "Bearer " + Interpolate(authKey)];
      }
      var response := upstream.Post(link, RequestBody(request), headers);
      r := ToGraphResult(stringify, response);
    }

    /** `executeWithRetry`: the loop that `Retry` specifies. */
    method ExecuteWithRetry(link: string, request: Request, useApiKey: bool, retryLimit: int, delay: int)
      returns (r: Result<Value, Thrown>)
      modifies upstream`served, upstream`trace
      ensures var run := Retry(upstream.respond, stringify, old(upstream.served), retryLimit);
              && r == run.result
              && upstream.served == old(upstream.served) + run.calls
              && upstream.trace == old(upstream.trace)
                   + RetryTrace(Call(link, Headers(useApiKey, authKey), RequestBody(request)), Pause(delay), run.calls)
    {
      ghost var start := upstream.served;
      ghost var post := Call(link, Headers(useApiKey, authKey), RequestBody(request));
      var attempts := 0;
      while attempts < retryLimit
        invariant retryLimit > 0 ==> attempts < retryLimit
        invariant retryLimit <= 0 ==> attempts == 0
        invariant upstream.served == start + attempts
        invariant upstream.trace == old(upstream.trace) + Rounds(post, Pause(delay), attempts)
        invariant retryLimit > 0 ==>
                    Retry(upstream.respond, stringify, start, retryLimit)
                    == RetryFrom(upstream.respond, stringify, start, retryLimit, attempts)
      {
        var result := ExecuteToGraph(link, request, useApiKey);
        assert result == Attempt(upstream.respond, stringify, start, attempts);
        TraceStep(old(upstream.trace), post, Pause(delay), attempts);
        if result.Success? {
          assert RetryFrom(upstream.respond, stringify, start, retryLimit, attempts) == RetryRun(result, attempts + 1);
          return result;
        }
        attempts := attempts + 1;
        if attempts >= retryLimit {
          assert RetryFrom(upstream.respond, stringify, start, retryLimit, attempts - 1)
              == RetryRun(Failure(Exhausted(result.error, retryLimit)), attempts);
          if result.error.HttpException? && result.error.status == 429 {
            return Failure(TOO_MANY_REQUESTS);
          }
          return Failure(Error("Failed to execute request after " + NatToString(retryLimit) + " attempts"));
        }
        upstream.Sleep(delay);
      }
      return Success(Undefined);
    }

    /** The effect of `execute` on a cache `m`, with transport calls numbered
        from `start`, reading the cache at `readNow` and writing it at
        `writeNow`. */
    function ExecuteSpec(m: map<string, Cache.Entry>, start: nat, chainId: string, version: string,
                         request: Request, readNow: int, writeNow: int): ExecRun
    {
      var key := KeyOf(chainId, version, request);
      var read := Cache.Lookup(m, key, readNow);
      if read.value.Some? && Truthy(read.value.value) then
        ExecRun(Success(read.value.value), read.cache, 0, [])
      else
        match networkUtils.GetLinkByChainId(chainId)
        case Failure(e) => ExecRun(Failure(e), read.cache, 0, [])
        case Success(url) =>
          Dispatch(read.cache, key, start, PrimaryLink(url, version), chainId, request,
                   cacheService.GenerateExpirationTime(request.query), writeNow)
    }

    /** `executeWithRetry(link, request, ..., useApiKey)` with the default
        limit and delay, its transport calls numbered from `start`: the run
        and the events it produces. */
    function RetryLeg(start: nat, link: string, request: Request, useApiKey: bool): Leg {
      var run := Retry(upstream.respond, stringify, start, DEFAULT_RETRY_LIMIT);
      Leg(run, RetryTrace(Call(link, Headers(useApiKey, authKey), RequestBody(request)), Pause(DEFAULT_DELAY), run.calls))
    }

    /** The explorer link is truthy: present and not empty. */
    predicate HasExplorer(chainId: string) {
      var link := networkUtils.GetExplorerLinkByChainId(chainId);
      link.Some? && link.value != ""
    }

    function ExplorerLink(chainId: string): string
      requires HasExplorer(chainId)
    {
      networkUtils.GetExplorerLinkByChainId(chainId).value
    }

    /** The calls `execute` makes after a cache miss, once the primary link
        is known, starting from the cache `m`: the primary leg and, when the
        chain has an explorer link, the explorer leg that follows it; a
        success is cached for `ttl`. */
    function Dispatch(m: map<string, Cache.Entry>, key: string, start: nat, link: string, chainId: string,
                      request: Request, ttl: int, writeNow: int): ExecRun
    {
      var primary := RetryLeg(start, link, request, false);
      Compose(m, key, ttl, writeNow, primary, ExplorerLeg(start, chainId, request, primary))
    }

    /** The explorer leg that follows a failed `primary` leg, when the chain
        has an explorer link. */
    function ExplorerLeg(start: nat, chainId: string, request: Request, primary: Leg): Option<Leg> {
      if HasExplorer(chainId) then Some(RetryLeg(start + primary.run.calls, ExplorerLink(chainId), request, true))
      else None
    }
    /** `execute(chainId, version, request)`. */
    method Execute(chainId: string, version: string, request: Request, readNow: int, writeNow: int)
      returns (r: Result<Value, Thrown>)
      modifies cacheService`cache, upstream`served, upstream`trace
      ensures var run := ExecuteSpec(old(cacheService.cache), old(upstream.served), chainId, version, request, readNow, writeNow);
              && r == run.result
              && cacheService.cache == run.cache
              && upstream.served == old(upstream.served) + run.calls
              && upstream.trace == old(upstream.trace) + run.trace
    {
      var key := GenerateKey(chainId, version, stringify(RequestBody(request)));
      var cacheResponse := cacheService.Get(key, readNow);
      if cacheResponse.Some? && Truthy(cacheResponse.value) {
        return Success(cacheResponse.value);
      }
      var url := networkUtils.GetLinkByChainId(chainId);
      if url.Failure? {
        return Failure(url.error);
      }
      r := Forward(key, PrimaryLink(url.value, version), chainId, request, writeNow);
    }

    /** The part of `execute` after a cache miss: the primary call with its
        retries, the explorer fallback, and the cache write. */
    method Forward(key: string, link: string, chainId: string, request: Request, writeNow: int)
      returns (r: Result<Value, Thrown>)
      modifies cacheService`cache, upstream`served, upstream`trace
      ensures var run := Dispatch(old(cacheService.cache), key, old(upstream.served), link, chainId, request,
                                  cacheService.GenerateExpirationTime(request.query), writeNow);
              && r == run.result
              && cacheService.cache == run.cache
              && upstream.served == old(upstream.served) + run.calls
              && upstream.trace == old(upstream.trace) + run.trace
    {
      ghost var start := upstream.served;
      ghost var primary := RetryLeg(start, link, request, false);
      var response := ExecuteWithRetry(link, request, false, DEFAULT_RETRY_LIMIT, DEFAULT_DELAY);
      if response.Failure? {
        var explorer := networkUtils.GetExplorerLinkByChainId(chainId);
        if explorer.Some? && explorer.value != "" {
          ghost var fallback := RetryLeg(start + primary.run.calls, explorer.value, request, true);
          response := ExecuteWithRetry(explorer.value, request, true, DEFAULT_RETRY_LIMIT, DEFAULT_DELAY);
          AppendAssociative(old(upstream.trace), primary.trace, fallback.trace);
          if response.Failure? {
            return response;
          }
        } else {
          return response;
        }
      }
      var ttl := cacheService.GenerateExpirationTime(request.query);
      cacheService.Set(key, response.value, ttl, writeNow);
      return response;
    }
  }

  /** The end of `execute`: a success is cached for `ttl`, a failure
      leaves the cache alone. */
  function Finish(m: map<string, Cache.Entry>, key: string, result: Result<Value, Thrown>,
                  ttl: int, writeNow: int, calls: nat, trace: seq<Event>): ExecRun
  {
    if result.Success? then
      ExecRun(result, Cache.Store(m, key, result.value, ttl, writeNow), calls, trace)
    else
      ExecRun(result, m, calls, trace)
  }

  /** The try/catch of `execute`: the primary leg's success is kept; its
      failure is rethrown when there is no explorer leg, and is otherwise
      replaced by what the explorer leg, run after it, gives. */
  function Compose(m: map<string, Cache.Entry>, key: string, ttl: int, writeNow: int,
                   primary: Leg, fallback: Option<Leg>): ExecRun
  {
    if primary.run.result.Success? then
      Finish(m, key, primary.run.result, ttl, writeNow, primary.run.calls, primary.trace)
    else
      match fallback
      case None => ExecRun(primary.run.result, m, primary.run.calls, primary.trace)
      case Some(f) =>
        Finish(m, key, f.run.result, ttl, writeNow, primary.run.calls + f.run.calls, primary.trace + f.trace)
  }

  /** Appending one call, then one pause, to `n` rounds. */
  lemma TraceStep(prefix: seq<Event>, post: Event, sleep: Event, n: nat)
    ensures prefix + Rounds(post, sleep, n) + [post] == prefix + RetryTrace(post, sleep, n + 1)
    ensures prefix + Rounds(post, sleep, n) + [post] + [sleep] == prefix + Rounds(post, sleep, n + 1)
  {
  }

  lemma AppendAssociative(a: seq<Event>, b: seq<Event>, c: seq<Event>)
    ensures a + b + c == a + (b + c)
  {
  }

  /** `${chainId}-${version}-${query}`. */
  function KeyPreimage(chainId: string, version: string, query: string): string {
    chainId + "-" + version + "-" + query
  }
}
