/** What the two relay handlers receive from and hand back to their
    surroundings: the parsed request body, the outcome of the
    outbound call and the response. The handlers themselves keep separate
    result policies (LeadRoute and LogRoute). */
module Http {
  import opened Wrappers
  import Js

  /** The outcome of `await request.json()`: a value, or a thrown parse error. */
  datatype BodyRead = Parsed(json: Js.Value) | Malformed

  /** The outcome of the outbound `await fetch(...)`: an HTTP status, or a
      thrown network error. */
  datatype FetchResult = Responded(status: int) | NetworkError

  /** `response.ok`: the status is in the range 200-299, the 2xx class. */
  predicate StatusOk(status: int)
    ensures StatusOk(status) <==> status / 100 == 2
  {
    200 <= status <= 299
  }

  /** The JSON body of a handler's response: `{ok: true}` or
      `{ok: false, error}`. */
  datatype Reply = OkTrue | Failed(error: string)

  datatype Response = Response(status: int, reply: Reply)

  /** `NextResponse.json({ok: true})`, whose default status is 200 */
  const Ok200 := Response(200, OkTrue)

  /** One outbound POST with a JSON payload */
  datatype Outbound<T> = Outbound(endpoint: string, payload: T)

  /** What one invocation of a handler did: whether it read the request body,
      what it forwarded (if anything), and how it responded. */
  datatype Exchange<T> = Exchange(bodyRead: bool, forwarded: Option<Outbound<T>>, response: Response)

  /** The response body as the browser's `response.json()` sees it */
  function ReplyJson(r: Reply): (v: Js.Value)
    ensures Js.Properties(v).Some?
    ensures Js.Truthy(Js.Get(Js.Properties(v).value, "ok")) <==> r == OkTrue
  {
    match r
    case OkTrue => Js.Obj(map["ok" := Js.Bool(true)])
    case Failed(e) => Js.Obj(map["ok" := Js.Bool(false), "error" := Js.Str(e)])
  }
}
