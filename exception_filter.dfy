/** The global exception filter: which HTTP status and which message an exception gets,
    which error code goes into the body, and the error envelope that is sent. Logging and
    the sending itself are left out. */
module ExceptionFilter {
  import opened Common
  import opened Js
  import opened Errors
  import opened BusinessErrors
  import Utils

  const HttpStatusUnauthorized: int := 401
  const HttpStatusInternalServerError: int := 500

  /** What can reach the filter: a `BusinessException`, any other `HttpException`, a
      database `QueryFailedError`, or any other value, seen through the optional
      `status`, `statusCode`, `response.message` and `message` properties and `${exception}`. */
  datatype Thrown =
    | BusinessThrown(exc: BusinessException)
    | HttpThrown(status: int, message: string)
    | QueryFailed(message: string)
    | OtherThrown(
        statusField: Option<int>,
        statusCodeField: Option<int>,
        responseMessage: Option<string>,
        messageField: Option<string>,
        shown: string)

  /** `getStatus`. */
  function GetStatus(e: Thrown): (s: int)
    ensures e.BusinessThrown? ==> s == e.exc.status
    ensures e.HttpThrown? ==> s == e.status
    ensures e.QueryFailed? ==> s == HttpStatusInternalServerError
    ensures e.OtherThrown? && e.statusField.Some? ==> s == e.statusField.value
    ensures e.OtherThrown? && e.statusField.None? && e.statusCodeField.Some? ==> s == e.statusCodeField.value
    ensures e.OtherThrown? && e.statusField.None? && e.statusCodeField.None? ==> s == HttpStatusInternalServerError
  {
    match e
    case BusinessThrown(b) => b.status
    case HttpThrown(status, _) => status
    case QueryFailed(_) => HttpStatusInternalServerError
    case OtherThrown(status, statusCode, _, _, _) =>
      if status.Some? then status.value
      else if statusCode.Some? then statusCode.value
      else HttpStatusInternalServerError
  }

  /** `getErrorMessage`. */
  function GetErrorMessage(e: Thrown): (m: string)
    ensures e.BusinessThrown? ==> m == e.exc.Message()
    ensures e.HttpThrown? || e.QueryFailed? ==> m == e.message
    ensures e.OtherThrown? && e.responseMessage.Some? ==> m == e.responseMessage.value
    ensures e.OtherThrown? && e.responseMessage.None? && e.messageField.Some? ==> m == e.messageField.value
    ensures e.OtherThrown? && e.responseMessage.None? && e.messageField.None? ==> m == e.shown
  {
    match e
    case BusinessThrown(b) => b.Message()
    case HttpThrown(_, message) => message
    case QueryFailed(message) => message
    case OtherThrown(_, _, responseMessage, message, shown) =>
      if responseMessage.Some? then responseMessage.value
      else if message.Some? then message.value
      else shown
  }

  /** The `code` of the body: a business exception's own code, otherwise the status in decimal. */
  function ErrorCodeOf(e: Thrown): (c: string)
    ensures e.BusinessThrown? ==> c == e.exc.GetErrorCode()
    ensures !e.BusinessThrown? ==> c == IntToString(GetStatus(e))
  {
    if e.BusinessThrown? then e.exc.GetErrorCode() else IntToString(GetStatus(e))
  }

  /** `BasicResponseDto`: code, data and message. */
  datatype ResponseBody = ResponseBody(code: string, data: Option<string>, message: string)

  datatype ErrorResponse = ErrorResponse(status: int, body: ResponseBody)

  /** `catch`: `response.status(status).send(BasicResponseDto.error(errorCode, message))`. */
  function Catch(e: Thrown): (r: ErrorResponse)
    ensures r.status == GetStatus(e)
    ensures r.body.data == None
    ensures r.body.code == ErrorCodeOf(e) && r.body.message == GetErrorMessage(e)
  {
    ErrorResponse(GetStatus(e), ResponseBody(ErrorCodeOf(e), None, GetErrorMessage(e)))
  }

  /** A business exception is answered with HTTP 200 and carries its own code in the body. */
  lemma BusinessExceptionAnsweredWithOk(error: string, k: ResponseConstants)
    ensures Catch(BusinessThrown(NewBusinessException(error, k))).status == HttpStatusOk
    ensures Catch(BusinessThrown(NewBusinessException(error, k))).body.code
         == NewBusinessException(error, k).errorCode
  {
  }

  /** A response body code taken from the status never looks like a business code that
      starts with a letter: it is an optional minus sign followed by digits. */
  lemma StatusCodesAreNumeric(e: Thrown)
    requires !e.BusinessThrown?
    ensures var c := Catch(e).body.code;
      forall i :: 0 <= i < |c| ==> IsDigitChar(c[i]) || (i == 0 && c[i] == '-')
  {
  }

  /** `new UnauthorizedException(text)`: its message is the text, or "Unauthorized" when the
      text is `undefined` or empty. */
  function UnauthorizedMessage(text: Option<string>): string {
    if text.Some? && text.value != "" then text.value else "Unauthorized"
  }

  /** What each failure of the core throws, given the texts of the error codes: a business
      failure is a `BusinessException` built from its code's text; an Unauthorized failure is
      an `UnauthorizedException` whose message is the text's second segment, or
      "Unauthorized" when that is undefined or empty; the captcha `TypeError` is a plain
      error with a `message` and no status. */
  function ThrownOf(f: Failure, codeText: ErrorCode -> string, k: ResponseConstants): (t: Thrown)
    ensures f.Business? ==> t == BusinessThrown(NewBusinessException(codeText(f.code), k))
    ensures f.Unauthorized? ==>
      var m := Utils.GetErrorMessage(codeText(f.code));
      && t.HttpThrown? && t.status == HttpStatusUnauthorized
      && (m.Some? && m.value != "" ==> t.message == m.value)
      && (m.None? || m.value == "" ==> t.message == "Unauthorized")
    ensures f.TypeError? ==>
      && t.OtherThrown? && t.statusField.None? && t.statusCodeField.None?
      && t.responseMessage.None? && t.messageField.Some?
  {
    match f
    case Business(c) => BusinessThrown(NewBusinessException(codeText(c), k))
    case Unauthorized(c) =>
      HttpThrown(HttpStatusUnauthorized, UnauthorizedMessage(Utils.GetErrorMessage(codeText(c))))
    case TypeError =>
      var m := "Cannot read properties of undefined (reading 'toLowerCase')";
      OtherThrown(None, None, None, Some(m), "TypeError: " + m)
  }

  /** How the failures of the core reach the client: business errors as HTTP 200 with their
      own code, guard and refresh rejections as HTTP 401 with code "401", and the `TypeError`
      of a missing captcha answer as HTTP 500 with code "500". */
  lemma FailureResponses(f: Failure, codeText: ErrorCode -> string, k: ResponseConstants)
    ensures var r := Catch(ThrownOf(f, codeText, k));
      && (f.Business? ==> r.status == HttpStatusOk
                          && r.body.code == NewBusinessException(codeText(f.code), k).errorCode)
      && (f.Unauthorized? ==> r.status == HttpStatusUnauthorized && r.body.code == "401")
      && (f.TypeError? ==> r.status == HttpStatusInternalServerError && r.body.code == "500")
      && r.body.data == None
  {
    assert NatToString(401) == NatToString(40) + [Digit(1)];
    assert NatToString(40) == NatToString(4) + [Digit(0)];
    assert NatToString(500) == NatToString(50) + [Digit(0)];
    assert NatToString(50) == NatToString(5) + [Digit(0)];
  }
}
