/** The two error middlewares: conversion of anything thrown into an `ApiError`,
    and the response an `ApiError` produces in a given environment. */
module ErrorMiddleware {
  import opened Common
  import opened ApiErrors

  /** JavaScript truthiness of an optional numeric `statusCode` property. */
  predicate HasStatusCode(statusCode: Option<int>) {
    statusCode.Some? && statusCode.value != 0
  }

  /** `errorConverter`: an `ApiError` passes unchanged; any other error becomes a
      non-operational one, 400 when it carries a `statusCode` and 500 otherwise,
      keeping its message (or the status name when the message is empty) and stack. */
  function ErrorConverter(err: Thrown): (e: ApiError)
    ensures err.Api? ==> e == err.apiError
    ensures err.Fault? ==> !e.isOperational && e.stack == err.stack
    ensures err.Fault? && HasStatusCode(err.statusCode) ==> e.statusCode == BAD_REQUEST
    ensures err.Fault? && !HasStatusCode(err.statusCode) ==> e.statusCode == INTERNAL_SERVER_ERROR
    ensures err.Fault? && err.message != Text("") ==> e.message == err.message
    ensures err.Fault? && err.message == Text("") ==> e.message == StatusName(e.statusCode)
  {
    match err
    case Api(e) => e
    case Fault(statusCode, message, stack) =>
      var code := if HasStatusCode(statusCode) then BAD_REQUEST else INTERNAL_SERVER_ERROR;
      ApiError(code, if message != Text("") then message else StatusName(code), false, stack)
  }

  /** The JSON body of an error response. */
  datatype ErrorBody = ErrorBody(code: int, message: Message, stack: Option<string>)

  /** The HTTP status sent and the body sent with it. */
  datatype ErrorResponse = ErrorResponse(status: int, body: ErrorBody)

  /** `errorHandler` in environment `env`: in production a non-operational error is
      masked as a generic 500; the stack is sent only in development. */
  function ErrorHandler(err: ApiError, env: string): (r: ErrorResponse)
    ensures r.body.code == r.status
    ensures r.body.stack.Some? <==> env == "development"
    ensures r.body.stack.Some? ==> r.body.stack.value == err.stack
    ensures env == "production" && !err.isOperational ==>
      r.status == INTERNAL_SERVER_ERROR && r.body.message == Text("Internal Server Error")
    ensures !(env == "production" && !err.isOperational) ==>
      r.status == err.statusCode && r.body.message == err.message
  {
    var statusCode := if env == "production" && !err.isOperational then INTERNAL_SERVER_ERROR else err.statusCode;
    var message := if env == "production" && !err.isOperational then StatusName(INTERNAL_SERVER_ERROR) else err.message;
    ErrorResponse(statusCode, ErrorBody(statusCode, message, if env == "development" then Some(err.stack) else None))
  }

  /** What a client sees for anything thrown: conversion, then the handler. */
  function Respond(err: Thrown, env: string): ErrorResponse {
    ErrorHandler(ErrorConverter(err), env)
  }

  /** Every error the services raise reaches the client with its own status and message. */
  lemma ServiceErrorsReachClient(statusCode: int, message: Message, env: string)
    ensures Respond(Api(Raise(statusCode, message)), env).status == statusCode
    ensures Respond(Api(Raise(statusCode, message)), env).body.message == message
  {
  }

  /** In production nothing but an `ApiError` reaches the client: any other fault
      is reported as a bare 500 without its message or stack. */
  lemma FaultsMaskedInProduction(statusCode: Option<int>, message: Message, stack: string)
    ensures Respond(Fault(statusCode, message, stack), "production")
      == ErrorResponse(INTERNAL_SERVER_ERROR, ErrorBody(INTERNAL_SERVER_ERROR, Text("Internal Server Error"), None))
  {
  }
}
