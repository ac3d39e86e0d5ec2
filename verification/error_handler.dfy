/**
 * The Express error middleware: picks the HTTP status of a thrown error from
 * its message text, falls back to the error's own status (or 500), and echoes
 * the message in the JSON body.
 */
module ErrorHandler {
  import opened Wrappers
  import opened Strings
  import opened Constants

  /** A thrown JavaScript `Error`; `statusCode` and `code` are the optional extra properties. */
  datatype JsError = JsError(message: string, statusCode: Option<int>, code: Option<string>)

  /** The response: status plus the `error` and `code` fields of the JSON body. */
  datatype ErrorResponse = ErrorResponse(status: int, error: string, code: string)

  /** A plain `new Error(message)`. */
  function PlainError(message: string): JsError {
    JsError(message, None, None)
  }

  /** The message patterns that mean a client error. */
  predicate IsBadRequestMessage(msg: string) {
    Contains(msg, "already running") || Contains(msg, "not running") || Contains(msg, "Maximum")
    || Contains(msg, "Invalid") || Contains(msg, "must be")
  }

  /** `errorHandler`: status and code selection. */
  function HandleError(err: JsError): (r: ErrorResponse)
    ensures r.error == err.message
    ensures err.code.Some? && err.code.value != "" ==> r.code == err.code.value
    ensures err.code.None? || err.code.value == "" ==> r.code == VALIDATION_ERROR
    ensures Contains(err.message, "not found") ==> r.status == HTTP_NOT_FOUND
    ensures !Contains(err.message, "not found") && IsBadRequestMessage(err.message) ==> r.status == HTTP_BAD_REQUEST
    ensures !Contains(err.message, "not found") && !IsBadRequestMessage(err.message) ==>
      r.status == (if err.statusCode.Some? && err.statusCode.value != 0 then err.statusCode.value else HTTP_INTERNAL_SERVER_ERROR)
  {
    // `err.statusCode || 500` and `err.code || 'VALIDATION_ERROR'`: 0 and '' are falsy
    var fallback := if err.statusCode.Some? && err.statusCode.value != 0 then err.statusCode.value else HTTP_INTERNAL_SERVER_ERROR;
    var code := if err.code.Some? && err.code.value != "" then err.code.value else VALIDATION_ERROR;
    var status :=
      if Contains(err.message, "not found") then HTTP_NOT_FOUND
      else if Contains(err.message, "already running") || Contains(err.message, "not running") then HTTP_BAD_REQUEST
      else if Contains(err.message, "Maximum") then HTTP_BAD_REQUEST
      else if Contains(err.message, "Invalid") || Contains(err.message, "must be") then HTTP_BAD_REQUEST
      else fallback;
    ErrorResponse(status, err.message, code)
  }
}
