/** The values the gateway throws. */
module Errors {

  /** A NestJS `HttpException` carries an HTTP status and a message; every
      other thrown value in the gateway is a plain `Error` with a message and
      no status. */
  datatype Thrown =
    | HttpException(status: int, message: string)
    | Error(message: string)
}
