/** The HTTP vocabulary shared by the handlers and middleware: the status codes
    they use, the JSON body they write and the verdict a middleware reaches. */
module Http {
  import opened Wrappers

  const StatusOK: int := 200
  const StatusCreated: int := 201
  const StatusBadRequest: int := 400
  const StatusUnauthorized: int := 401
  const StatusNotFound: int := 404
  const StatusConflict: int := 409
  const StatusInternalServerError: int := 500

  /** A JSON body: either `{"error": ..., "details": ...}` or a success payload. */
  datatype Body<T> = Error(error: string, details: Option<string>) | Json(value: T)

  /** What a handler writes with `c.JSON(status, body)`. */
  datatype Reply<T> = Reply(status: int, body: Body<T>)

  function Fail<T>(status: int, error: string): Reply<T>
  {
    Reply(status, Error(error, None))
  }

  function FailWith<T>(status: int, error: string, details: string): Reply<T>
  {
    Reply(status, Error(error, Some(details)))
  }

  /** What a middleware decides: `c.Next()` carrying the value it stores in the
      context, or `c.Abort()` after writing an error reply. */
  datatype Verdict<T> = Proceed(value: T) | Abort(status: int, error: string)
}
