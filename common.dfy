/** Small value types shared by every module of the model. */
module Common {

  /** An optional value; `None` stands for a field or an argument that is
      absent (`undefined` or `null` in the service). */
  datatype Option<+T> = None | Some(value: T) {

    /** The value, or `default` when absent (a JavaScript default parameter). */
    function GetOr(default: T): T {
      if Some? then value else default
    }
  }

  /** An operation either returns a value or throws an error. */
  datatype Result<+T, +E> = Success(value: T) | Failure(error: E)

  /** A user's `_id`. The store hands ids out in insertion order. */
  type UserId = nat

  /** A one-time password, as produced by the random-number helper. */
  type Otp = int

  /** JavaScript truthiness of an optional string field: absent and "" are falsy. */
  predicate Present(s: Option<string>) {
    s.Some? && s.value != ""
  }
}
