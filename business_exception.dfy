/** `BusinessException`: an HTTP exception with status 200 whose body carries an
    application error code and message, parsed from a `"code:message"` string. */
module BusinessErrors {
  import opened Common
  import opened Js
  import Utils

  const HttpStatusOk: int := 200

  /** The success code and message of the response constants. Their file is not part of
      this model, so their values are left open. */
  datatype ResponseConstants = ResponseConstants(successCode: string, successMessage: string)

  /** The body handed to the HTTP exception. */
  datatype Body = Body(code: string, message: string)

  datatype BusinessException = BusinessException(
    body: Body,
    status: int,
    errorCode: string,
    errorMessage: Option<string>)
  {
    /** The exception's `message`: the body's `message` field. */
    function Message(): string {
      body.message
    }

    function GetErrorCode(): string {
      errorCode
    }

    function GetErrorMessage(): Option<string> {
      errorMessage
    }
  }

  /** `new BusinessException(error)`. Without a colon the input is a plain message under the
      success code; with one, the code is what comes before the first colon and the message
      what lies between the first and the second. */
  function NewBusinessException(error: string, k: ResponseConstants): (e: BusinessException)
    ensures e.status == HttpStatusOk
    ensures ':' !in error ==>
      && e.errorCode == k.successCode && e.body.code == k.successCode
      && e.body.message == (if error == "" then k.successMessage else error)
      && e.errorMessage == None
    ensures ':' in error ==> |e.errorCode| < |error|
    ensures ':' in error ==>
      var code, msg := e.errorCode, e.body.message;
      var rest := error[|code| + 1..];
      && e.body.code == code && e.errorMessage == Some(msg)
      && ':' !in code && error[..|code|] == code && error[|code|] == ':'
      && ':' !in msg && |msg| <= |rest| && rest[..|msg|] == msg
      && (|rest| == |msg| || rest[|msg|] == ':')
  {
    if ':' !in error then
      BusinessException(
        Body(k.successCode, if error == "" then k.successMessage else error),
        HttpStatusOk, k.successCode, None)
    else
      var parts := Split(error, ':');
      JoinSplit(error, ':');
      SplitLeadingPieces(error, ':');
      var code, message := parts[0], parts[1];
      BusinessException(Body(code, message), HttpStatusOk, code, Some(message))
  }

  /** For `"c:m"` with no colon in `c` or `m`, the code is `c` and the message is `m`. */
  lemma BusinessExceptionOfPair(c: string, m: string, k: ResponseConstants)
    requires ':' !in c && ':' !in m
    ensures NewBusinessException(c + ":" + m, k).GetErrorCode() == c
    ensures NewBusinessException(c + ":" + m, k).Message() == m
    ensures NewBusinessException(c + ":" + m, k).GetErrorMessage() == Some(m)
  {
    var s := c + ":" + m;
    assert s == Join([c, m], ':');
    SplitJoin([c, m], ':');
  }

  /** The exception's message is what the `getErrorMessage` helper extracts from the same
      string, whenever the string holds a colon. */
  lemma MessageAgreesWithHelper(error: string, k: ResponseConstants)
    requires ':' in error
    ensures Utils.GetErrorMessage(error) == Some(NewBusinessException(error, k).Message())
    ensures NewBusinessException(error, k).GetErrorMessage() == Utils.GetErrorMessage(error)
  {
  }

  /** The two getters hand back what the constructor parsed: `getErrorMessage` is exactly
      the helper's second segment (undefined when there is no colon, since the field is
      then never set), and `getErrorCode` is the success code without a colon and the text
      before the first colon with one. */
  lemma ErrorGetters(error: string, k: ResponseConstants)
    ensures NewBusinessException(error, k).GetErrorMessage() == Utils.GetErrorMessage(error)
    ensures ':' !in error ==> NewBusinessException(error, k).GetErrorCode() == k.successCode
    ensures ':' in error ==>
      var code := NewBusinessException(error, k).GetErrorCode();
      |code| < |error| && error[..|code| + 1] == code + ":" && ':' !in code
  {
    if ':' in error {
      MessageAgreesWithHelper(error, k);
      var code := NewBusinessException(error, k).GetErrorCode();
      assert error[..|code| + 1] == error[..|code|] + [error[|code|]];
    }
  }
}
