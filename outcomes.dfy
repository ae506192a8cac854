/**
 * Values shared by the three screens: optional values, the outcome of one
 * awaited HTTP request, and the way a handler turns a failed request into
 * the text it shows.
 */
module Outcomes {

  datatype Option<+T> = None | Some(value: T) {
    function GetOr(default: T): T {
      match this
      case Some(v) => v
      case None => default
    }
  }

  /**
   * What an awaited `axios` call comes back with.
   * - `Ok(data)`: a 2xx response whose body is `data`.
   * - `Rejected(status, message)`: the server answered with an error status;
   *   `message` is the body's `message` field, `None` when it is absent.
   * - `NoResponse`: the request failed before any response arrived, so
   *   `error.response` is undefined.
   */
  datatype Reply<+T> =
    | Ok(data: T)
    | Rejected(status: int, message: Option<string>)
    | NoResponse

  /** `error.response?.status === 401`: the token was refused. */
  predicate Unauthorized<T>(reply: Reply<T>)
    ensures Unauthorized(reply) ==> reply.Rejected?
    ensures reply.Rejected? ==> (Unauthorized(reply) <==> reply.status == 401)
  {
    reply.Rejected? && reply.status == 401
  }

  /** `error.response?.data?.message`: the server's text, if any. */
  function ServerMessage<T>(reply: Reply<T>): (m: Option<string>)
    ensures reply.Rejected? ==> m == reply.message
    ensures !reply.Rejected? ==> m == None
  {
    match reply
    case Rejected(_, message) => message
    case _ => None
  }

  /**
   * JavaScript's `m || fallback` on an optional string: an absent or empty
   * message is falsy and gives way to the fallback.
   */
  function OrFallback(m: Option<string>, fallback: string): (r: string)
    ensures r == fallback || (m == Some(r) && r != "")
    ensures m.Some? && m.value != "" ==> r == m.value
    ensures fallback != "" ==> r != ""
  {
    if m.Some? && m.value != "" then m.value else fallback
  }
}
