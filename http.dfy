/**
 * Requests, responses and the single-shot promise every call returns. The transport
 * (the `request` library, agents, TLS) is outside the model: a call's response arrives
 * as an HttpResult value.
 */
module Http {

  import opened Wrappers
  import opened Js

  datatype Method = GET | PUT | POST | PATCH | DELETE

  /**
   * One HTTP request. The URI sent is `url.resolve(base, ref) + suffix`. With `json`
   * set, `body` is sent as JSON and the response body is parsed as JSON; without it,
   * `body` is sent as the text `JSON.stringify(body)`.
   */
  datatype Request = Request(
    verb: Method, base: string, ref: string, suffix: string, json: bool, body: Option<Value>)

  /** What the transport reports: a connection-level error, or a status code and a body. */
  datatype HttpResult<B> = TransportError(error: Value) | Response(status: int, body: B)

  /** Why a promise was rejected. */
  datatype Reason<B> =
    | Transport(error: Value)   // the transport's error, passed on unchanged
    | StatusBody(body: B)       // a status other than 200: the response body
    | Thrown(message: string)   // an Error raised before any request was sent

  /** How a returned promise settles. */
  datatype Outcome<T, B> = Resolved(value: T) | Rejected(reason: Reason<B>)

  /**
   * The response callback every call installs: a transport error rejects with that
   * error, any status but 200 rejects with the response body, 200 resolves with the
   * body. There is no retry: each response is classified exactly once.
   */
  function Settle<B>(res: HttpResult<B>): (o: Outcome<B, B>)
    ensures o.Resolved? <==> res.Response? && res.status == 200
    ensures o.Resolved? ==> o.value == res.body
    ensures res.TransportError? ==> o == Rejected(Transport(res.error))
    ensures res.Response? && res.status != 200 ==> o == Rejected(StatusBody(res.body))
  {
    match res
    case TransportError(e) => Rejected(Transport(e))
    case Response(status, body) => if status != 200 then Rejected(StatusBody(body)) else Resolved(body)
  }

  /** `resolve()` with no argument: the caller gets undefined instead of the body. */
  function Completed<B>(o: Outcome<B, B>): Outcome<Value, B> {
    match o
    case Resolved(_) => Resolved(Undefined)
    case Rejected(r) => Rejected(r)
  }

  /**
   * A call that validates its arguments first: a Failure is `Promise.reject(new
   * Error(message))` and sends nothing; otherwise the request is sent and `res` is its
   * response.
   */
  function Call<B>(built: Result<Request, string>, res: HttpResult<B>): Outcome<B, B> {
    match built
    case Failure(message) => Rejected(Thrown(message))
    case Success(_) => Settle(res)
  }

  /**
   * A call rejected by validation settles the same way whatever the network would have
   * answered: no request was sent.
   */
  lemma RejectedBeforeSending<B>(built: Result<Request, string>, r1: HttpResult<B>, r2: HttpResult<B>)
    requires built.Failure?
    ensures Call(built, r1) == Call(built, r2) == Rejected(Thrown(built.error))
  {
  }

  /** Why a line of a streamed response was not delivered as an item. */
  datatype StreamError =
    | SyntaxError              // JSON.parse rejected the line
    | TypeError                // the parsed line was null and a property of it was read
    | SiblingsNotArray         // "Siblings is not an array"

  /** One call of a stream callback `next(error, item)`. */
  datatype Delivery<T> = Item(item: T) | Error(error: StreamError)
}
