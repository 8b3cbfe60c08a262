/** The global exception filter: every exception that escapes a request
    handler becomes a JSON error reply. */
module ExceptionFilter {
  import opened Errors

  /** `HttpStatus.INTERNAL_SERVER_ERROR`. */
  const INTERNAL_SERVER_ERROR: int := 500
  /** The message shown for anything that is not an `HttpException`. */
  const UNKNOWN_ERROR: string := "Unknown error"

  /** The JSON body of an error reply. */
  datatype ErrorBody = ErrorBody(message: string, statusCode: int, timestamp: string, path: string)

  /** An error reply: the HTTP status set on the response and its body. */
  datatype Reply = Reply(status: int, body: ErrorBody)

  /** The reply for `exception` on a request to `url`, stamped with
      `timestamp` (the ISO rendering of the current time). */
  function Render(exception: Thrown, url: string, timestamp: string): (reply: Reply)
    ensures exception.HttpException? ==>
              reply.status == exception.status && reply.body.message == exception.message
    ensures !exception.HttpException? ==>
              reply.status == INTERNAL_SERVER_ERROR && reply.body.message == UNKNOWN_ERROR
    ensures reply.body.statusCode == reply.status
    ensures reply.body.path == url && reply.body.timestamp == timestamp
  {
    var status := if exception.HttpException? then exception.status else INTERNAL_SERVER_ERROR;
    var message := if exception.HttpException? then exception.message else UNKNOWN_ERROR;
    Reply(status, ErrorBody(message, status, timestamp, path := url))
  }

  /** The error counter of the metrics service. */
  class Metrics {
    var errorCount: nat

    constructor()
      ensures errorCount == 0
    {
      errorCount := 0;
    }

    /** `incrementErrorCount`. */
    method IncrementErrorCount()
      modifies this`errorCount
      ensures errorCount == old(errorCount) + 1
    {
      errorCount := errorCount + 1;
    }
  }

  class AllExceptionsFilter {
    const metrics: Metrics

    constructor(metrics: Metrics)
      ensures this.metrics == metrics
    {
      this.metrics := metrics;
    }

    /** `catch(exception, host)`: counts the error once and writes the reply
        for the request's URL. */
    method Catch(exception: Thrown, url: string, timestamp: string) returns (reply: Reply)
      modifies metrics`errorCount
      ensures metrics.errorCount == old(metrics.errorCount) + 1
      ensures reply == Render(exception, url, timestamp)
    {
      metrics.IncrementErrorCount();
      var status := INTERNAL_SERVER_ERROR;
      var message := UNKNOWN_ERROR;
      if exception.HttpException? {
        status := exception.status;
        message := exception.message;
      }
      reply := Reply(status, ErrorBody(message, status, timestamp, url));
    }
  }
}
