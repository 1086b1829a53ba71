/** What a route handler answers: an HTTP status and either the JSON body
    of a success or the `error` text of a failure. */
module Http {
  import opened Wrappers

  datatype Response<T> = Response(status: nat, body: Result<T, string>)

  function Ok<T>(status: nat, value: T): Response<T> {
    Response(status, Success(value))
  }

  function Error<T>(status: nat, message: string): Response<T> {
    Response(status, Failure(message))
  }
}
