/** HTTP status codes, response messages and the service's `ApiError`. */
module ApiErrors {
  import opened Common

  const BAD_REQUEST: int := 400
  const UNAUTHORIZED: int := 401
  const NOT_FOUND: int := 404
  const NOT_ACCEPTABLE: int := 406
  const CONFLICT: int := 409
  const INTERNAL_SERVER_ERROR: int := 500

  /** The response-message constants the services throw with, and literal texts. */
  datatype Message =
    | IncorrectMobile | IncorrectEmail | BlockedUser | UnverifiedMobile | UnverifiedEmail
    | IncorrectPassword | AdminLoginError | NoUserFound | InvalidUser | IncorrectOtp
    | UserAlreadyExist | EmailNotInvited | InvitationAlreadyAccepted | InvalidLink | ExpiredLink
    | Text(text: string)

  /** The reason phrase the status library gives for a code (`httpStatus[code]`). */
  function StatusName(code: int): Message {
    if code == BAD_REQUEST then Text("Bad Request")
    else if code == UNAUTHORIZED then Text("Unauthorized")
    else if code == NOT_FOUND then Text("Not Found")
    else if code == NOT_ACCEPTABLE then Text("Not Acceptable")
    else if code == CONFLICT then Text("Conflict")
    else if code == INTERNAL_SERVER_ERROR then Text("Internal Server Error")
    else Text("")
  }

  /** An operational error carrying an HTTP status and a message. */
  datatype ApiError = ApiError(statusCode: int, message: Message, isOperational: bool, stack: string)

  /** `new ApiError(status, message)`: operational, stack left to the runtime. */
  function Raise(statusCode: int, message: Message): ApiError {
    ApiError(statusCode, message, true, "")
  }

  /** Anything thrown towards the error middleware: an `ApiError` or any other error
      (a TypeError, a driver error), with its optional `statusCode` property. */
  datatype Thrown =
    | Api(apiError: ApiError)
    | Fault(statusCode: Option<int>, message: Message, stack: string)
}
