/** What a client sees when `execute` fails: the exception it throws passes
    through the global exception filter. */
module EndToEnd {
  import opened Wrappers
  import opened Values
  import Cache
  import Network
  import opened Graph
  import opened GraphLaws
  import opened ExceptionFilter

  /** A failed `execute` reaches the client as 429 "Too Many Requests"
      exactly when its last transport call was answered with a 429, and as
      500 "Unknown error" otherwise, including the rejection of an
      unsupported chain, which makes no call at all. */
  lemma ExecuteFailureRendering(g: GraphService, m: map<string, Cache.Entry>, start: nat, chainId: string,
                                version: string, request: Request, readNow: int, writeNow: int,
                                url: string, timestamp: string)
    requires g.ExecuteSpec(m, start, chainId, version, request, readNow, writeNow).result.Failure?
    ensures var run := g.ExecuteSpec(m, start, chainId, version, request, readNow, writeNow);
            var reply := Render(run.result.error, url, timestamp);
            && (reply.status == 429 || reply.status == INTERNAL_SERVER_ERROR)
            && (reply.status == 429 <==>
                  run.calls > 0 && Attempt(g.upstream.respond, g.stringify, start, run.calls - 1) == Failure(TOO_MANY_REQUESTS))
            && (reply.status == 429 ==> reply.body.message == "Too Many Requests")
            && (reply.status == INTERNAL_SERVER_ERROR ==> reply.body.message == UNKNOWN_ERROR)
            && (run.calls == 0 ==> chainId !in Network.SUPPORTED_CHAIN_IDS)
  {
    var key := g.KeyOf(chainId, version, request);
    Cache.LookupSpec(m, key, readNow);
    ExecuteResult(g, m, start, chainId, version, request, readNow, writeNow);
    ExecuteCalls(g, m, start, chainId, version, request, readNow, writeNow);
    if Misses(g, m, chainId, version, request, readNow) && chainId !in Network.SUPPORTED_CHAIN_IDS {
      UnsupportedChainRejected(g, m, start, chainId, version, request, readNow, writeNow);
    }
  }

  /** However the retry loop gives up, the client sees 429 "Too Many
      Requests" when the last attempt was rejected with a 429, and 500
      "Unknown error" when it failed for any other reason. */
  lemma ExhaustionRendering(respond: nat -> Outcome, stringify: Value -> string, start: nat, retryLimit: int,
                            url: string, timestamp: string)
    requires Retry(respond, stringify, start, retryLimit).result.Failure?
    ensures var run := Retry(respond, stringify, start, retryLimit);
            var reply := Render(run.result.error, url, timestamp);
            && run.calls == retryLimit
            && (Attempt(respond, stringify, start, run.calls - 1) == Failure(TOO_MANY_REQUESTS) ==>
                  reply == Reply(429, ErrorBody("Too Many Requests", 429, timestamp, url)))
            && (Attempt(respond, stringify, start, run.calls - 1) != Failure(TOO_MANY_REQUESTS) ==>
                  reply == Reply(INTERNAL_SERVER_ERROR, ErrorBody(UNKNOWN_ERROR, INTERNAL_SERVER_ERROR, timestamp, url)))
  {
    RetrySpec(respond, stringify, start, retryLimit);
  }
}
