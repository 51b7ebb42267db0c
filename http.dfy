/**
 * What a route handler hands back: a status and either the JSON value of a
 * successful call or the `{ error }` message of a failed one.
 */
module Http {
  import opened Wrappers

  datatype Response<+T> = Response(status: int, body: Result<T, string>)

  const Ok: int := 200
  const BadRequest: int := 400
  const Unauthorized: int := 401
  const InternalServerError: int := 500

  const UnauthorizedMessage: string := "Unauthorized"
  const InternalErrorMessage: string := "Internal server error"

  /** `NextResponse.json(value)`: status 200 with the value. */
  function JsonOk<T>(value: T): Response<T> {
    Response(Ok, Success(value))
  }

  /** `NextResponse.json({ error }, { status })`. */
  function JsonError<T>(status: int, message: string): Response<T> {
    Response(status, Failure(message))
  }
}
