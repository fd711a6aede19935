/**
 * `errorHandler`: turns an error that reached the end of the request
 * pipeline into a status code and a JSON body, after logging it.
 */
module ErrorHandler {
  import opened Results

  /**
   * The error handed to the handler: an `AppError` (the application's own
   * errors, with their status code) or any other error.
   */
  datatype Thrown =
    | AppError(message: string, statusCode: int, stack: Option<string>)
    | OtherError(message: string, stack: Option<string>)

  /** The JSON body; `stack` is None when the key is not set. */
  datatype ErrorBody = ErrorBody(status: string, message: string, stack: Option<string>)

  /** The fields the handler logs before it answers. */
  datatype LogRecord = LogRecord(text: string, error: string, stack: Option<string>)

  datatype Handled = Handled(log: LogRecord, status: int, body: ErrorBody)

  const InternalError := "Internal server error"

  /** `errorHandler(error, …)`, with `nodeEnv` the value of `NODE_ENV` (None when unset). */
  function HandleError(error: Thrown, nodeEnv: Option<string>): (h: Handled)
    ensures h.log == LogRecord("Error occurred:", error.message, error.stack)
    ensures h.body.status == "fail"
    ensures error.AppError? ==> h.status == error.statusCode && h.body.message == error.message && h.body.stack.None?
    ensures error.OtherError? ==> h.status == 500 && h.body.message == InternalError
    ensures h.body.stack.Some? ==> error.OtherError? && nodeEnv == Some("development") && h.body.stack == error.stack
    ensures error.OtherError? && nodeEnv == Some("development") ==> h.body.stack == error.stack
  {
    var log := LogRecord("Error occurred:", error.message, error.stack);
    match error
    case AppError(message, statusCode, _) =>
      Handled(log, statusCode, ErrorBody("fail", message, None))
    case OtherError(_, stack) =>
      var withStack := if nodeEnv == Some("development") then stack else None;
      Handled(log, 500, ErrorBody("fail", InternalError, withStack))
  }

  /** The answer to an error that is not an `AppError` does not depend on its message. */
  lemma OtherErrorMessageHidden(m1: string, m2: string, stack: Option<string>, nodeEnv: Option<string>)
    ensures HandleError(OtherError(m1, stack), nodeEnv).status == HandleError(OtherError(m2, stack), nodeEnv).status
    ensures HandleError(OtherError(m1, stack), nodeEnv).body == HandleError(OtherError(m2, stack), nodeEnv).body
  {
  }
}
