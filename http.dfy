/** The response a hapi handler produces: a value, or one of the boom errors
    the handlers throw. A non-boom error escaping a handler is answered with
    500 by hapi, which is `ServerError` here too. */
module Http {

  datatype Outcome<+T> =
    | Ok(value: T)
    | BadRequest(message: string)
    | Unauthorized(message: string)
    | NotFound
    | Conflict
    | ServerError
  {
    /** The HTTP status code of the response. */
    function StatusCode(): int {
      match this
      case Ok(_) => 200
      case BadRequest(_) => 400
      case Unauthorized(_) => 401
      case NotFound => 404
      case Conflict => 409
      case ServerError => 500
    }

    /** The same error, as the response of a handler with another result type
        (an error thrown by a helper and left to propagate). */
    function Cast<U>(): (r: Outcome<U>)
      requires !Ok?
      ensures r.StatusCode() == StatusCode()
    {
      match this
      case BadRequest(m) => BadRequest(m)
      case Unauthorized(m) => Unauthorized(m)
      case NotFound => NotFound
      case Conflict => Conflict
      case ServerError => ServerError
    }
  }

  /** The message boom gives `badRequest()` when none is passed. */
  const BAD_REQUEST := "Bad Request"
  /** The message boom gives `unauthorized()` when none is passed. */
  const UNAUTHORIZED := "Unauthorized"
}
