/** The log relay, `POST /api/log`: forwards a pageview or click event
    best-effort and reports success to the caller on every path. */
module LogRoute {
  import opened Wrappers
  import Js
  import opened Http
  import LeadRoute

  const UnknownType := "unknown"

  /** The forwarded event. An optional field that is None is `undefined` in
      the object literal, which `JSON.stringify` leaves out. */
  datatype LogRecord = LogRecord(
    eventType: Js.Value,
    path: Option<Js.Value>,
    utm_source: Option<Js.Value>,
    utm_medium: Option<Js.Value>,
    utm_campaign: Option<Js.Value>,
    userAgent: Option<Js.Value>)

  /** The `logData` object literal */
  function LogData(body: map<string, Js.Value>): (r: LogRecord)
    ensures Js.Truthy(Js.Get(body, "type")) ==> r.eventType == Js.Get(body, "type")
    ensures !Js.Truthy(Js.Get(body, "type")) ==> r.eventType == Js.Str(UnknownType)
    ensures Js.Truthy(r.eventType)
    ensures Js.KeptIfTruthy(r.path, Js.Get(body, "path"))
    ensures Js.KeptIfTruthy(r.utm_source, Js.Get(body, "utm_source"))
    ensures Js.KeptIfTruthy(r.utm_medium, Js.Get(body, "utm_medium"))
    ensures Js.KeptIfTruthy(r.utm_campaign, Js.Get(body, "utm_campaign"))
    ensures Js.KeptIfTruthy(r.userAgent, Js.Get(body, "userAgent"))
  {
    LogRecord(
      eventType := Js.Or(Js.Get(body, "type"), Js.Str(UnknownType)),
      path := Js.DropFalsy(Js.Get(body, "path")),
      utm_source := Js.DropFalsy(Js.Get(body, "utm_source")),
      utm_medium := Js.DropFalsy(Js.Get(body, "utm_medium")),
      utm_campaign := Js.DropFalsy(Js.Get(body, "utm_campaign")),
      userAgent := Js.DropFalsy(Js.Get(body, "userAgent")))
  }

  /** `GAS_LOGS_ENDPOINT || GAS_LEADS_ENDPOINT` */
  function Endpoint(gasLogsEndpoint: Option<string>, gasLeadsEndpoint: Option<string>): (e: Option<string>)
    ensures Js.Present(e) <==> Js.Present(gasLogsEndpoint) || Js.Present(gasLeadsEndpoint)
    ensures Js.Present(e) ==> e.value == (if Js.Present(gasLogsEndpoint) then gasLogsEndpoint else gasLeadsEndpoint).value
  {
    if Js.Present(gasLogsEndpoint) then gasLogsEndpoint else gasLeadsEndpoint
  }

  /** The `POST` handler. Whatever the configuration, the body and the
      outcome of the outbound call, the response is `{ok: true}` with status
      200; only whether the body was read and what was forwarded vary. */
  function Post(gasLogsEndpoint: Option<string>, gasLeadsEndpoint: Option<string>,
                request: BodyRead, downstream: FetchResult): (x: Exchange<LogRecord>)
    ensures x.response == Ok200
    ensures x.bodyRead <==> Js.Present(Endpoint(gasLogsEndpoint, gasLeadsEndpoint))
    ensures x.forwarded.Some? <==>
              x.bodyRead && request.Parsed? && Js.Properties(request.json).Some?
    ensures x.forwarded.Some? ==>
              x.forwarded.value ==
                Outbound(Endpoint(gasLogsEndpoint, gasLeadsEndpoint).value,
                         LogData(Js.Properties(request.json).value))
  {
    var endpoint := Endpoint(gasLogsEndpoint, gasLeadsEndpoint);
    if !Js.Present(endpoint) then
      Exchange(false, None, Ok200)
    else
      match request
      case Malformed => Exchange(true, None, Ok200)
      case Parsed(json) =>
        match Js.Properties(json)
        case None => Exchange(true, None, Ok200)
        case Some(body) =>
          var out := Outbound(endpoint.value, LogData(body));
          match downstream
          case NetworkError => Exchange(true, Some(out), Ok200)
          case Responded(_) => Exchange(true, Some(out), Ok200)
  }

  /** The two relays' failure policies differ on the same inputs: when the
      lead relay reports failure, the log relay, given the same body,
      downstream outcome and leads endpoint (and no logs endpoint), still
      reports success; and both forward exactly when the body is readable. */
  lemma FailurePolicyAsymmetry(gasLeadsEndpoint: Option<string>, request: BodyRead, downstream: FetchResult)
    ensures Post(None, gasLeadsEndpoint, request, downstream).response == Ok200
    ensures LeadRoute.Post(gasLeadsEndpoint, request, downstream).response == Ok200 <==>
              Js.Present(gasLeadsEndpoint) && request.Parsed? && Js.Properties(request.json).Some?
              && downstream.Responded? && StatusOk(downstream.status)
    ensures Post(None, gasLeadsEndpoint, request, downstream).forwarded.Some? <==>
              LeadRoute.Post(gasLeadsEndpoint, request, downstream).forwarded.Some?
  {
  }
}
