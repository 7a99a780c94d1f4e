/** The lead relay, `POST /api/lead`: sanitises a contact-form submission,
    forwards it to the configured spreadsheet endpoint, and reports failure
    to the caller whenever the lead may not have been delivered. */
module LeadRoute {
  import opened Wrappers
  import Js
  import JsString
  import opened Http

  const NameMax: nat := 120
  const EmailMax: nat := 160
  const PhoneMax: nat := 60
  const NotesMax: nat := 500

  const NotConfiguredError := "GAS_LEADS_ENDPOINT not configured"
  const InternalError := "Internal server error"

  /** The forwarded record. An optional field that is None is `undefined` in
      the object literal, which `JSON.stringify` leaves out. */
  datatype LeadRecord = LeadRecord(
    name: string,
    email: string,
    phone: string,
    notes: string,
    utm_source: Option<Js.Value>,
    utm_medium: Option<Js.Value>,
    utm_campaign: Option<Js.Value>,
    path: Option<Js.Value>,
    userAgent: Option<Js.Value>)

  /** `String(body[key] || '')` */
  function Coerced(body: map<string, Js.Value>, key: string): string {
    Js.ToStr(Js.Or(Js.Get(body, key), Js.Str("")))
  }

  /** `String(body[key] || '').substring(0, bound)` */
  function Bounded(body: map<string, Js.Value>, key: string, bound: nat): string {
    JsString.SubstringTo(Coerced(body, key), bound)
  }

  /** A truncated field: a prefix of the coerced input, as long as the input
      or the bound, whichever is shorter. */
  predicate TruncatedFrom(field: string, input: string, bound: nat) {
    field <= input && |field| == Min(|input|, bound)
  }

  /** The `sanitizedData` object literal */
  function Sanitize(body: map<string, Js.Value>): (r: LeadRecord)
    ensures TruncatedFrom(r.name, Coerced(body, "name"), NameMax)
    ensures TruncatedFrom(r.email, Coerced(body, "email"), EmailMax)
    ensures TruncatedFrom(r.phone, Coerced(body, "phone"), PhoneMax)
    ensures TruncatedFrom(r.notes, Coerced(body, "notes"), NotesMax)
    ensures Js.KeptIfTruthy(r.utm_source, Js.Get(body, "utm_source"))
    ensures Js.KeptIfTruthy(r.utm_medium, Js.Get(body, "utm_medium"))
    ensures Js.KeptIfTruthy(r.utm_campaign, Js.Get(body, "utm_campaign"))
    ensures Js.KeptIfTruthy(r.path, Js.Get(body, "path"))
    ensures Js.KeptIfTruthy(r.userAgent, Js.Get(body, "userAgent"))
  {
    LeadRecord(
      name := Bounded(body, "name", NameMax),
      email := Bounded(body, "email", EmailMax),
      phone := Bounded(body, "phone", PhoneMax),
      notes := Bounded(body, "notes", NotesMax),
      utm_source := Js.DropFalsy(Js.Get(body, "utm_source")),
      utm_medium := Js.DropFalsy(Js.Get(body, "utm_medium")),
      utm_campaign := Js.DropFalsy(Js.Get(body, "utm_campaign")),
      path := Js.DropFalsy(Js.Get(body, "path")),
      userAgent := Js.DropFalsy(Js.Get(body, "userAgent")))
  }

  /** The four string fields of a record are all within their bounds. */
  predicate WithinBounds(r: LeadRecord) {
    |r.name| <= NameMax && |r.email| <= EmailMax && |r.phone| <= PhoneMax && |r.notes| <= NotesMax
  }

  /** The optional fields of a record are absent or truthy, never "" or null. */
  predicate OptionalsTruthy(r: LeadRecord) {
    && (r.utm_source.Some? ==> Js.Truthy(r.utm_source.value))
    && (r.utm_medium.Some? ==> Js.Truthy(r.utm_medium.value))
    && (r.utm_campaign.Some? ==> Js.Truthy(r.utm_campaign.value))
    && (r.path.Some? ==> Js.Truthy(r.path.value))
    && (r.userAgent.Some? ==> Js.Truthy(r.userAgent.value))
  }

  /** The keys of the forwarded JSON object */
  const RequiredKeys: set<string> := {"name", "email", "phone", "notes"}
  const OptionalKeys: set<string> := {"utm_source", "utm_medium", "utm_campaign", "path", "userAgent"}

  /** The value `JSON.stringify` writes under `key`, or None when it leaves
      the key out */
  function FieldAt(r: LeadRecord, key: string): Option<Js.Value> {
    if key == "name" then Some(Js.Str(r.name))
    else if key == "email" then Some(Js.Str(r.email))
    else if key == "phone" then Some(Js.Str(r.phone))
    else if key == "notes" then Some(Js.Str(r.notes))
    else if key == "utm_source" then r.utm_source
    else if key == "utm_medium" then r.utm_medium
    else if key == "utm_campaign" then r.utm_campaign
    else if key == "path" then r.path
    else if key == "userAgent" then r.userAgent
    else None
  }

  /** The JSON object the record is sent as */
  function Payload(r: LeadRecord): (p: map<string, Js.Value>)
    ensures RequiredKeys <= p.Keys <= RequiredKeys + OptionalKeys
  {
    map key | key in RequiredKeys + OptionalKeys && FieldAt(r, key).Some? :: FieldAt(r, key).value
  }

  /** Each string field reads back from the payload as the record's value. */
  lemma PayloadLookup(r: LeadRecord)
    ensures Js.Get(Payload(r), "name") == Js.Str(r.name)
    ensures Js.Get(Payload(r), "email") == Js.Str(r.email)
    ensures Js.Get(Payload(r), "phone") == Js.Str(r.phone)
    ensures Js.Get(Payload(r), "notes") == Js.Str(r.notes)
  {
  }

  /** An optional field reads back as its value, or as undefined when absent. */
  lemma PayloadLookupOptional(r: LeadRecord)
    ensures Js.Get(Payload(r), "utm_source") == if r.utm_source.Some? then r.utm_source.value else Js.Undefined
    ensures Js.Get(Payload(r), "utm_medium") == if r.utm_medium.Some? then r.utm_medium.value else Js.Undefined
    ensures Js.Get(Payload(r), "utm_campaign") == if r.utm_campaign.Some? then r.utm_campaign.value else Js.Undefined
    ensures Js.Get(Payload(r), "path") == if r.path.Some? then r.path.value else Js.Undefined
    ensures Js.Get(Payload(r), "userAgent") == if r.userAgent.Some? then r.userAgent.value else Js.Undefined
  {
  }

  /** Every sanitised record is within bounds, and its optional fields are
      never forwarded as falsy values. */
  lemma SanitizeShape(body: map<string, Js.Value>)
    ensures WithinBounds(Sanitize(body)) && OptionalsTruthy(Sanitize(body))
  {
  }

  /** A missing or falsy name, email, phone or notes becomes "", never absent. */
  lemma FalsyBecomesEmpty(body: map<string, Js.Value>, key: string)
    requires key in {"name", "email", "phone", "notes"}
    requires !Js.Truthy(Js.Get(body, key))
    ensures key in Payload(Sanitize(body)) && Payload(Sanitize(body))[key] == Js.Str("")
  {
    Js.CoerceOrEmpty(Js.Get(body, key));
  }

  /** A string field already within its bound is forwarded unchanged. */
  lemma WithinBoundUnchanged(body: map<string, Js.Value>, key: string, bound: nat)
    requires (key, bound) in {("name", NameMax), ("email", EmailMax), ("phone", PhoneMax), ("notes", NotesMax)}
    requires Js.Get(body, key).Str? && |Js.Get(body, key).s| <= bound
    ensures Payload(Sanitize(body))[key] == Js.Get(body, key)
  {
    Js.CoerceOrEmpty(Js.Get(body, key));
  }

  /** A record within bounds whose optional fields are truthy survives a
      second sanitisation unchanged; in particular sanitising is idempotent. */
  lemma SanitizeFixesSanitized(r: LeadRecord)
    requires WithinBounds(r) && OptionalsTruthy(r)
    ensures Sanitize(Payload(r)) == r
  {
    PayloadLookup(r);
    Js.CoerceOrEmpty(Js.Str(r.name));
    Js.CoerceOrEmpty(Js.Str(r.email));
    Js.CoerceOrEmpty(Js.Str(r.phone));
    Js.CoerceOrEmpty(Js.Str(r.notes));
  }

  lemma SanitizeIdempotent(body: map<string, Js.Value>)
    ensures Sanitize(Payload(Sanitize(body))) == Sanitize(body)
  {
    SanitizeFixesSanitized(Sanitize(body));
  }

  const NotConfiguredResponse := Response(500, Failed(NotConfiguredError))
  const InternalErrorResponse := Response(500, Failed(InternalError))

  /** The `POST` handler. `gasLeadsEndpoint` is `process.env.GAS_LEADS_ENDPOINT`;
      `request` is the outcome of reading the body (only consulted once the
      endpoint is configured); `downstream` is the outcome of the outbound
      call (only consulted once it is made). A non-ok status is thrown and
      caught, so it ends exactly like a thrown exception. */
  function Post(gasLeadsEndpoint: Option<string>, request: BodyRead, downstream: FetchResult): (x: Exchange<LeadRecord>)
    ensures !Js.Present(gasLeadsEndpoint) ==> x == Exchange(false, None, NotConfiguredResponse)
    ensures x.bodyRead <==> Js.Present(gasLeadsEndpoint)
    ensures x.forwarded.Some? <==>
              Js.Present(gasLeadsEndpoint) && request.Parsed? && Js.Properties(request.json).Some?
    ensures x.forwarded.Some? ==>
              x.forwarded.value == Outbound(gasLeadsEndpoint.value, Sanitize(Js.Properties(request.json).value))
    ensures x.response == Ok200 <==>
              x.forwarded.Some? && downstream.Responded? && StatusOk(downstream.status)
    ensures x.response != Ok200 ==> x.response.status == 500 && x.response.reply.Failed?
    ensures Js.Present(gasLeadsEndpoint) && x.response != Ok200 ==> x.response == InternalErrorResponse
  {
    if !Js.Present(gasLeadsEndpoint) then
      Exchange(false, None, NotConfiguredResponse)
    else
      match request
      case Malformed => Exchange(true, None, InternalErrorResponse)
      case Parsed(json) =>
        match Js.Properties(json)
        case None => Exchange(true, None, InternalErrorResponse)
        case Some(body) =>
          var out := Outbound(gasLeadsEndpoint.value, Sanitize(body));
          match downstream
          case NetworkError => Exchange(true, Some(out), InternalErrorResponse)
          case Responded(status) =>
            if StatusOk(status) then Exchange(true, Some(out), Ok200)
            else Exchange(true, Some(out), InternalErrorResponse)
  }

  /** A downstream failure, whether a non-ok status or a thrown error, is
      reported to the caller as the same generic 500. */
  lemma DownstreamFailureIsInternalError(gasLeadsEndpoint: Option<string>, body: map<string, Js.Value>, downstream: FetchResult)
    requires Js.Present(gasLeadsEndpoint)
    requires !(downstream.Responded? && StatusOk(downstream.status))
    ensures Post(gasLeadsEndpoint, Parsed(Js.Obj(body)), downstream).response == InternalErrorResponse
    ensures Post(gasLeadsEndpoint, Parsed(Js.Obj(body)), downstream).forwarded.Some?
  {
  }
}
