/**
 * The boundary of the `kong` web framework as the private endpoint sees it:
 * HTTP methods, JSON bodies, the response model (a successful JSON response
 * or one of the standard error responses) and the per-request context that
 * may carry a session token (the "passport").
 */
module Kong {
  import opened Wrappers

  /** HTTP methods. `Get` and `Post` are the two the registered endpoints use;
      every other method is kept apart by its name. */
  datatype Method = Get | Post | Other(name: string)

  /** The JSON values the endpoints build. */
  datatype Json = JString(s: string) | JObject(members: seq<(string, Json)>)

  /** The standard error responses; each has a fixed status code. */
  datatype ErrorKind = Unauthorized | BadRequest | Internal | NotFound

  /** A response: either a JSON body with a status code, or a standard error. */
  datatype Response = JsonResponse(status: nat, body: Json) | ErrorResponse(kind: ErrorKind)
  {
    /** The HTTP status code sent to the client. Error responses never use a
        2xx code, so a success and an error can always be told apart. */
    function StatusCode(): (c: nat)
      ensures ErrorResponse? ==> 400 <= c < 600
      ensures ErrorResponse? && kind == Unauthorized ==> c == 401
    {
      // 400, 404 and 500 are placeholders: the framework's own codes for
      // these errors are not part of this model, and the contract does not
      // promise them.
      match this
      case JsonResponse(status, _) => status
      case ErrorResponse(Unauthorized) => 401
      case ErrorResponse(BadRequest) => 400
      case ErrorResponse(NotFound) => 404
      case ErrorResponse(Internal) => 500
    }
  }

  /** The request context handed to a handler: the session token, when the
      request carried a valid one. The raw request is not modelled. */
  datatype Kong<P> = Kong(kpassport: Option<P>)
}
