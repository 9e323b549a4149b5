/** Optional values, used for the nullable fields of the components (`null`, `undefined`). */
module Wrappers {
  datatype Option<+T> = None | Some(value: T) {
    function GetOr(default: T): T {
      match this
      case Some(v) => v
      case None => default
    }
  }
}

/**
 * The outcome of an HTTP request made with axios. The request itself is network
 * I/O and is not modelled; each handler receives the outcome as an input.
 *  - Ok: the promise resolved (axios resolves for 2xx answers); `data` is the
 *    `data` member of the JSON body.
 *  - Failed: the promise rejected with an error that carries a response.
 *  - NoResponse: the promise rejected without a response (network error,
 *    or an exception thrown while handling the answer).
 */
module Http {
  datatype Response<T> =
    | Ok(status: int, data: T)
    | Failed(status: int, message: string)
    | NoResponse
}
