/**
 * The global error handler (template/src/Core/Middlewares/error.middleware.ts):
 * a priority-ordered classification of the thrown value into one error
 * response. It never calls `next`.
 */
module ErrorMiddleware {
  import opened Wrappers
  import opened Json
  import opened Responses
  import opened AppErrors

  /**
   * What reaches the handler through `next(err)`: an `AppError`; any other
   * object, with its `name`, its `message` (absent when `undefined`), its
   * `code` property (if any) and whether it has a `body` property; or a value
   * that is not an object at all (`null`, `undefined`, a string, a number, a
   * boolean).
   */
  datatype Thrown =
    | ThrownAppError(error: AppError)
    | OtherError(name: string, message: Option<string>, code: Option<Json>, hasBody: bool)
    | NonObject

  /** The handler throws a `TypeError` itself: `err.name` on `null` or
      `undefined`, or `'body' in err` on any other primitive. */
  const HandlerTypeError := "TypeError"

  /** The status code and message the handler answers an object error with. */
  function Classify(err: Thrown, nodeEnv: string): (int, Option<string>)
    requires !err.NonObject?
  {
    match err
    case ThrownAppError(e) => (e.statusCode, Some(e.message))
    case OtherError(name, message, code, hasBody) =>
      if name == "ValidationError" || name == "ZodError" then (422, Some("Validation failed"))
      else if code == Some(JNumber(11000)) then (409, Some("Duplicate field value"))
      else if hasBody then (400, Some("Invalid JSON"))
      else (500, if nodeEnv == "production" then Some("Something went wrong") else message)
  }

  /** `sendError(res, status, message)`, where `message` may be `undefined`
      and then drops out of the JSON body. */
  function ErrorReply(status: int, message: Option<string>): (h: HttpReply)
    ensures h.statusCode == status && Parse(h.body) == Some(ApiResponse(false, message, None))
  {
    BodyRoundTrip(ApiResponse(false, message, None));
    HttpReply(status, Body(ApiResponse(false, message, None)))
  }

  /** `errorHandler(err, req, res, next)`: exactly one response with
      `status: false` for an object error; a non-object makes the handler throw. */
  function ErrorHandler(err: Thrown, nodeEnv: string): (r: Result<HttpReply, string>)
    ensures r.Failure? <==> err.NonObject?
    ensures r.Failure? ==> r.error == HandlerTypeError
    ensures r.Success? ==>
      var (status, message) := Classify(err, nodeEnv);
      && r.value.statusCode == status
      && Parse(r.value.body) == Some(ApiResponse(false, message, None))
  {
    if err.NonObject? then Failure(HandlerTypeError)
    else
      var (status, message) := Classify(err, nodeEnv);
      Success(ErrorReply(status, message))
  }

  /** An `AppError` answers with its own status and message, whatever the environment. */
  lemma AppErrorWins(e: AppError, nodeEnv: string)
    ensures ErrorHandler(ThrownAppError(e), nodeEnv) == Success(SendError(e.statusCode, e.message))
  {
  }

  /**
   * Any other object error, by priority: a validation name gives 422
   * `Validation failed`, then a duplicate-key code gives 409 `Duplicate field
   * value`, then a `body` property gives 400 `Invalid JSON`, and otherwise 500
   * with `Something went wrong` in production and the error's own message
   * elsewhere.
   */
  lemma OtherErrorPriority(name: string, message: Option<string>, code: Option<Json>, hasBody: bool, nodeEnv: string)
    ensures var r := ErrorHandler(OtherError(name, message, code, hasBody), nodeEnv);
      var status := r.value.statusCode;
      && r.Success?
      && (status == 422 <==> name == "ValidationError" || name == "ZodError")
      && (status == 409 <==> name != "ValidationError" && name != "ZodError" && code == Some(JNumber(11000)))
      && (status == 400 <==> name != "ValidationError" && name != "ZodError" && code != Some(JNumber(11000)) && hasBody)
      && (status == 500 <==> name != "ValidationError" && name != "ZodError" && code != Some(JNumber(11000)) && !hasBody)
      && (status == 422 ==> r.value == SendError(422, "Validation failed"))
      && (status == 409 ==> r.value == SendError(409, "Duplicate field value"))
      && (status == 400 ==> r.value == SendError(400, "Invalid JSON"))
      && (status == 500 ==>
            r.value == ErrorReply(500, if nodeEnv == "production" then Some("Something went wrong") else message))
  {
  }

  /** In production an error that is not an `AppError` never exposes its own
      message: the answer is one of four fixed texts. */
  lemma ProductionHidesMessages(name: string, message: Option<string>, code: Option<Json>, hasBody: bool)
    ensures Classify(OtherError(name, message, code, hasBody), "production").1
         in {Some("Validation failed"), Some("Duplicate field value"), Some("Invalid JSON"), Some("Something went wrong")}
  {
  }

  /** Outside production an unclassified error answers 500 with its own
      message, whatever its `code` is when that is not 11000. */
  lemma UnknownErrorOutsideProduction(name: string, message: string, code: Option<Json>, nodeEnv: string)
    requires name != "ValidationError" && name != "ZodError" && nodeEnv != "production"
    requires code != Some(JNumber(11000))
    ensures ErrorHandler(OtherError(name, Some(message), code, false), nodeEnv) == Success(SendError(500, message))
  {
  }

  /** Outside production an unclassified error without a message sends a body
      holding only `status: false`. */
  lemma MissingMessageLeavesOnlyStatus(name: string, code: Option<Json>, nodeEnv: string)
    requires name != "ValidationError" && name != "ZodError" && nodeEnv != "production"
    requires code != Some(JNumber(11000))
    ensures ErrorHandler(OtherError(name, None, code, false), nodeEnv)
         == Success(HttpReply(500, JObject([("status", JBool(false))])))
  {
    assert Body(ApiResponse(false, None, None)) == JObject([("status", JBool(false))]);
  }
}
