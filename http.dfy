/** What a handler answers: a JSON body with status 200, or an error status with `{ error }`. */
module Http {

  datatype HttpStatus =
    | BadRequest400
    | Unauthorized401
    | Forbidden403
    | NotFound404
    | Conflict409
    | Internal500

  datatype Outcome<+T> = Ok(value: T) | Fail(status: HttpStatus, error: string)

  /** The answer to a request without a valid session. */
  function Unauthorized<T>(): Outcome<T> {
    Fail(Unauthorized401, "Unauthorized")
  }

  /** The answer of every `catch` block: whatever was thrown, status 500. */
  function ServerError<T>(): Outcome<T> {
    Fail(Internal500, "Internal server error")
  }
}
