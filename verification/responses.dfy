/**
 * The reply shapes the services and the gateway exchange: a `ResponseBase`
 * carrying `status`, specialised to an `ErrorResponse` with
 * `error.message` or to a `SuccessResponse` with `message` and `name`.
 */
module Responses {
  import opened Wrappers
  import opened Json

  datatype Response =
    | ErrorResponse(status: int, errorMessage: string)
    | SuccessResponse(status: int, message: string, name: string)

  /** The `{ error: { message } }` body carried by every error reply. */
  function ErrorBody(message: Value): Object {
    Field("error", JObj(Field("message", message)))
  }

  /**
   * Reads a reply object back into one of the two shapes; the error shape
   * takes precedence, as an `ErrorResponse` is recognised by its `error`.
   */
  function FromObject(o: Object): Option<Response> {
    if "status" !in o || !o["status"].JNum? then None
    else if "error" in o && o["error"].JObj? && "message" in o["error"].fields
            && o["error"].fields["message"].JStr? then
      Some(ErrorResponse(o["status"].n, o["error"].fields["message"].s))
    else if "message" in o && o["message"].JStr? && "name" in o && o["name"].JStr? then
      Some(SuccessResponse(o["status"].n, o["message"].s, o["name"].s))
    else None
  }

  /**
   * The object a service serialises: an error reply has exactly the keys
   * `status` and `error`, a success reply exactly `status`, `message` and
   * `name`; neither carries a correlation id, and reading it back gives
   * the same reply.
   */
  function ToObject(r: Response): (o: Object)
    ensures "status" in o && o["status"] == JNum(r.status)
    ensures r.ErrorResponse? ==> o.Keys == {"status", "error"}
    ensures r.SuccessResponse? ==> o.Keys == {"status", "message", "name"}
    ensures FromObject(o) == Some(r)
  {
    match r
    case ErrorResponse(status, m) =>
      ErrorBody(JStr(m))["status" := JNum(status)]
    case SuccessResponse(status, m, n) =>
      map["message" := JStr(m), "status" := JNum(status), "name" := JStr(n)]
  }
}
