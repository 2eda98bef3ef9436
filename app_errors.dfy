/** The application error type (template/src/Core/Errors/app.errors.ts). */
module AppErrors {
  import opened Wrappers
  import opened Json

  /** `AppError`: the message of the base `Error` plus four read-only fields. */
  datatype AppError = AppError(
    message: string,
    statusCode: int,
    code: string,
    details: Option<Json>,
    isOperational: bool)

  const DefaultStatusCode := 500
  const DefaultCode := "INTERNAL_ERROR"

  /** `new AppError(message, statusCode?, code?, details?, isOperational?)`: an
      omitted (`undefined`) argument takes its default. */
  function NewAppError(message: string, statusCode: Option<int>, code: Option<string>,
                       details: Option<Json>, isOperational: Option<bool>): (e: AppError)
    ensures e.message == message && e.details == details
    ensures statusCode.Some? ==> e.statusCode == statusCode.value
    ensures code.Some? ==> e.code == code.value
    ensures isOperational.Some? ==> e.isOperational == isOperational.value
    ensures statusCode.None? ==> e.statusCode == DefaultStatusCode
    ensures code.None? ==> e.code == DefaultCode
    ensures isOperational.None? ==> e.isOperational
  {
    AppError(message,
             if statusCode.Some? then statusCode.value else DefaultStatusCode,
             if code.Some? then code.value else DefaultCode,
             details,
             if isOperational.Some? then isOperational.value else true)
  }

  /** With only a message: status 500, code `INTERNAL_ERROR`, no details, operational. */
  lemma OmittedArgumentsTakeDefaults(message: string)
    ensures NewAppError(message, None, None, None, None)
         == AppError(message, 500, "INTERNAL_ERROR", None, true)
  {
  }
}
