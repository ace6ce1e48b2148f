/** Optional values and the outcome of one call to the REST backend. */
module Wrappers {

  /** A value that may be missing: `undefined` or `null` in the client. */
  datatype Option<+T> = None | Some(value: T) {
    function GetOr(default: T): T {
      match this
      case Some(v) => v
      case None => default
    }
  }

  /**
   * What one awaited REST call produced. `Success` carries the response body
   * the client reads (`response.data`); `Failure` is a rejected promise, with
   * the HTTP status when the server answered at all (`error.response?.status`)
   * and the server's `error` string ("" when the body has none).
   */
  datatype Reply<+T> = Success(value: T) | Failure(status: Option<int>, error: string)

  /** One REST request: the verb, the path under the API base URL and, for POST and PATCH, the JSON body. */
  datatype Request<+B> = Get(path: string) | Post(path: string, body: B) | Patch(path: string, body: B) | Delete(path: string)

  /** The empty body of a call whose response the client ignores (PATCH, DELETE). */
  datatype Ack = Ack
}
