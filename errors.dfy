/** The error kinds the core throws and the exception classes that carry them. */
module Errors {

  /** The `ErrorCodeEnum` members the core refers to. Their `"code:message"` texts are
      not defined anywhere in the source, so they stay abstract here. */
  datatype ErrorCode =
    | ExpiredCaptcha
    | InvalidCaptcha
    | UserNotFound
    | InvalidUsernamePassword
    | InvalidToken
    | InvalidRefreshToken
    | ExpiredRefreshToken

  /** What a failing call throws: a `BusinessException` built from an error code, an
      `UnauthorizedException` whose text is the message half of an error code, or the
      `TypeError` of calling a string method on `undefined`. */
  datatype Failure =
    | Business(code: ErrorCode)
    | Unauthorized(code: ErrorCode)
    | TypeError
}
