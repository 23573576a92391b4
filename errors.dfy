/** The error taxonomy of the server: `AppError` carries an HTTP status, a
    machine-readable code and a message that is safe to show to clients;
    anything else that can be thrown is either a schema-validation failure
    (a `ZodError`) or an arbitrary error with only a message. */
module Errors {
  import opened Base

  /** An `AppError`: every field is fixed when it is built. */
  datatype AppError = AppError(status: int, code: string, safeMessage: string, message: string)

  /** A thrown value, as the handlers' `catch` blocks tell them apart. */
  datatype Thrown =
    | AppErr(err: AppError)
    | SchemaErr(path: string)
    | OtherErr(text: string)

  /** `new AppError({status, code, safeMessage, message?})`: the `Error`
      message defaults to the safe message. */
  function NewAppError(status: int, code: string, safeMessage: string, message: Option<string>): (e: AppError)
    ensures e.status == status && e.code == code && e.safeMessage == safeMessage
    ensures message.None? ==> e.message == safeMessage
    ensures message.Some? ==> e.message == message.value
  {
    AppError(status, code, safeMessage, message.GetOr(safeMessage))
  }

  /** The common case of the source: an `AppError` built without a message. */
  function Fail(status: int, code: string, safeMessage: string): Thrown {
    AppErr(NewAppError(status, code, safeMessage, None))
  }

  predicate IsAppError(e: Thrown) { e.AppErr? }

  /** `e.message` of a thrown value. */
  function MessageOf(e: Thrown): string {
    match e
    case AppErr(a) => a.message
    case SchemaErr(p) => p
    case OtherErr(t) => t
  }

  /** The JSON error body sent to clients. */
  datatype ErrorBody = ErrorBody(error: string, code: Option<string>)

  /** `toSafeErrorBody`: an `AppError` shows its safe message and code;
      anything else shows only a fixed text, so no internal message leaks. */
  function ToSafeErrorBody(e: Thrown): (b: ErrorBody)
    ensures IsAppError(e) ==> b == ErrorBody(e.err.safeMessage, Some(e.err.code))
    ensures !IsAppError(e) ==> b == ErrorBody("Internal error", None)
    ensures b.code.Some? <==> IsAppError(e)
  {
    if e.AppErr? then ErrorBody(e.err.safeMessage, Some(e.err.code))
    else ErrorBody("Internal error", None)
  }

  /** The body never shows the `Error` message: two `AppError`s that differ
      only in it give the same body. */
  lemma SafeBodyIgnoresMessage(a: AppError, m: string)
    ensures ToSafeErrorBody(AppErr(a)) == ToSafeErrorBody(AppErr(a.(message := m)))
  {
  }

  /** Every value that is not an `AppError` gives the same body. */
  lemma SafeBodyHidesOtherErrors(e1: Thrown, e2: Thrown)
    requires !IsAppError(e1) && !IsAppError(e2)
    ensures ToSafeErrorBody(e1) == ToSafeErrorBody(e2) == ErrorBody("Internal error", None)
  {
  }
}
