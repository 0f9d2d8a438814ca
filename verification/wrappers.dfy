/** Option and the HTTP-style result used by every handler of the model. */
module Wrappers {

  datatype Option<+T> = None | Some(value: T)

  /** A handler's outcome: the value it responds with on success, or the
      HTTP status code of the error response it sends instead. */
  datatype Result<+T> = Ok(value: T) | Err(code: int)

  /** HTTP status codes used by the handlers. */
  const OK := 200
  const CREATED := 201
  const BAD_REQUEST := 400
  const UNAUTHORIZED := 401
  const FORBIDDEN := 403
  const NOT_FOUND := 404
  const CONFLICT := 409
  const SERVER_ERROR := 500
}
