/**
 * The error-to-response mapping of backend/src/middleware/error.middleware.ts:
 * known error kinds get fixed answers, everything else answers with the
 * error's own status code (500 when it has none) and message. Logging is not
 * part of the answer and is left out; the response is the returned value.
 */
module ErrorMiddleware {
  import opened Wrappers
  import opened JsStrings

  /** The fields of a thrown error the handler reads. An absent field is
      `undefined`. */
  datatype ErrorInfo = ErrorInfo(
    name: Option<string>,
    statusCode: Option<int>,
    message: Option<string>,
    code: Option<int>,
    errors: Option<map<string, string>>,
    keyValue: Option<map<string, string>>,
    stack: Option<string>)

  /** The `details` of a response body. */
  datatype Details =
    | ErrorsDetail(errors: map<string, string>)
    | MessageDetail(message: string)
    | KeyValueDetail(keyValue: map<string, string>)

  /** A JSON body; a field that is `undefined` is left out of the JSON, which
      is what `None` stands for. */
  datatype Body = Body(success: bool, status: string, message: string, details: Option<Details>, stack: Option<string>)

  datatype Response = Response(statusCode: int, body: Body)

  const DefaultMessage := "Internal Server Error. Please try again later."

  /** `err.statusCode || 500`: an absent or zero status code becomes 500. */
  function StatusCodeOf(err: ErrorInfo): int {
    if err.statusCode.Some? && err.statusCode.value != 0 then err.statusCode.value else 500
  }

  /** `` `${statusCode}`.startsWith("4") ? "fail" : "error" ``. */
  function StatusOf(statusCode: int): string {
    if StartsWith(IntToString(statusCode), "4") then "fail" else "error"
  }

  /** `err.message || DefaultMessage`. */
  function MessageOf(err: ErrorInfo): string {
    if err.message.Some? && err.message.value != "" then err.message.value else DefaultMessage
  }

  /** `err.errors || err.message`. */
  function ValidationDetails(err: ErrorInfo): Option<Details> {
    if err.errors.Some? then Some(ErrorsDetail(err.errors.value))
    else if err.message.Some? then Some(MessageDetail(err.message.value))
    else None
  }

  /** `errorHandler(err, req, res, next)`. */
  function Handle(err: ErrorInfo, nodeEnv: Option<string>): (r: Response)
    ensures !r.body.success
    ensures r.body.status in {"fail", "error"}
  {
    if err.name == Some("ValidationError") then
      Response(400, Body(false, "fail", "Validation Error", ValidationDetails(err), None))
    else if err.name == Some("MongoServerError") && err.code == Some(11000) then
      Response(409, Body(false, "fail", "Duplicate key error", if err.keyValue.Some? then Some(KeyValueDetail(err.keyValue.value)) else None, None))
    else if err.name == Some("JsonWebTokenError") then
      Response(401, Body(false, "fail", "Invalid or malformed token", None, None))
    else if err.name == Some("TokenExpiredError") then
      Response(401, Body(false, "fail", "Token expired. Please log in again.", None, None))
    else
      var statusCode := StatusCodeOf(err);
      Response(statusCode, Body(false, StatusOf(statusCode), MessageOf(err),
                                None, if nodeEnv == Some("development") then err.stack else None))
  }

  /** `process.env.NODE_ENV` once backend/src/config/index.ts has run: an
      unset or empty value becomes "development". */
  function ConfiguredNodeEnv(raw: Option<string>): (e: string)
    ensures e != ""
    ensures raw.Some? && raw.value != "" ==> e == raw.value
  {
    if raw.Some? && raw.value != "" then raw.value else "development"
  }

  /** The kinds with a fixed answer. */
  predicate KnownKind(err: ErrorInfo) {
    || err.name == Some("ValidationError")
    || (err.name == Some("MongoServerError") && err.code == Some(11000))
    || err.name == Some("JsonWebTokenError")
    || err.name == Some("TokenExpiredError")
  }

  // ---------------------------------------------------------------------
  // Properties
  // ---------------------------------------------------------------------

  /** The status code falls back to 500 exactly when the error has none or
      has 0. */
  lemma StatusCodeDefaults(err: ErrorInfo)
    ensures (err.statusCode.None? || err.statusCode.value == 0) ==> StatusCodeOf(err) == 500
    ensures (err.statusCode.Some? && err.statusCode.value != 0) ==> StatusCodeOf(err) == err.statusCode.value
    ensures StatusCodeOf(err) != 0
  {
  }

  /** For a three-digit status code, "fail" means exactly a 4xx code. */
  lemma StatusFailIffClientError(statusCode: int)
    requires 100 <= statusCode <= 999
    ensures StatusOf(statusCode) == "fail" <==> 400 <= statusCode <= 499
  {
    ThreeDigitLeading(statusCode);
    assert IntToString(statusCode) == NatToDecimal(statusCode);
    assert StartsWith(IntToString(statusCode), "4") <==> IntToString(statusCode)[0] == '4';
  }

  /** A negative status code reads "-…" and so is never "fail". */
  lemma NegativeStatusIsError(statusCode: int)
    requires statusCode < 0
    ensures StatusOf(statusCode) == "error"
  {
  }

  /** The message falls back to the default exactly when it is absent or
      empty. */
  lemma MessageDefaults(err: ErrorInfo)
    ensures MessageOf(err) == DefaultMessage <==> (err.message.None? || err.message.value in {"", DefaultMessage})
  {
  }

  /** A validation error is always a 400 "Validation Error", whatever status
      code it carries. */
  lemma ValidationErrorIs400(err: ErrorInfo, nodeEnv: Option<string>)
    requires err.name == Some("ValidationError")
    ensures Handle(err, nodeEnv).statusCode == 400
    ensures Handle(err, nodeEnv).body.status == "fail" && Handle(err, nodeEnv).body.message == "Validation Error"
    ensures Handle(err, nodeEnv) == Handle(err.(statusCode := None), nodeEnv)
  {
  }

  /** A Mongo server error is a 409 exactly when its code is 11000; with any
      other code it is answered as an unknown error. */
  lemma MongoDuplicateOnly11000(err: ErrorInfo, nodeEnv: Option<string>)
    requires err.name == Some("MongoServerError")
    ensures err.code == Some(11000) ==>
      Handle(err, nodeEnv).statusCode == 409 && Handle(err, nodeEnv).body.message == "Duplicate key error"
    ensures err.code != Some(11000) ==> Handle(err, nodeEnv) == Handle(err.(name := None), nodeEnv)
  {
  }

  /** Token errors are 401s with their fixed messages. */
  lemma TokenErrorsAre401(err: ErrorInfo, nodeEnv: Option<string>)
    ensures err.name == Some("JsonWebTokenError") ==>
      Handle(err, nodeEnv) == Response(401, Body(false, "fail", "Invalid or malformed token", None, None))
    ensures err.name == Some("TokenExpiredError") ==>
      Handle(err, nodeEnv) == Response(401, Body(false, "fail", "Token expired. Please log in again.", None, None))
  {
  }

  /** Every answer says `success: false`; a stack trace appears only for an
      unknown error while `NODE_ENV` is "development", and then it is the
      error's own. */
  lemma NeverSuccessStackOnlyInDevelopment(err: ErrorInfo, nodeEnv: Option<string>)
    ensures !Handle(err, nodeEnv).body.success
    ensures Handle(err, nodeEnv).body.stack.Some? ==>
      nodeEnv == Some("development") && !KnownKind(err) && Handle(err, nodeEnv).body.stack == err.stack
    ensures nodeEnv == Some("development") && !KnownKind(err) ==> Handle(err, nodeEnv).body.stack == err.stack
  {
  }

  /** An unknown error is answered with its status code (or 500) and its
      message (or the default). */
  lemma UnknownErrorAnswer(err: ErrorInfo, nodeEnv: Option<string>)
    requires !KnownKind(err)
    ensures Handle(err, nodeEnv).statusCode == StatusCodeOf(err)
    ensures Handle(err, nodeEnv).body.status == StatusOf(StatusCodeOf(err))
    ensures Handle(err, nodeEnv).body.message == MessageOf(err)
    ensures Handle(err, nodeEnv).body.details.None?
  {
  }

  /** With the configuration loaded, a server started without `NODE_ENV`
      sends the stack of an unknown error; a production one never does. */
  lemma UnsetNodeEnvSendsStack(err: ErrorInfo)
    requires !KnownKind(err)
    ensures Handle(err, Some(ConfiguredNodeEnv(None))).body.stack == err.stack
    ensures Handle(err, Some(ConfiguredNodeEnv(Some("")))).body.stack == err.stack
    ensures Handle(err, Some(ConfiguredNodeEnv(Some("production")))).body.stack.None?
  {
  }
}
