/** The client-side logic of the landing page component `Home`: UTM capture
    on mount, the contact form's validation and submit cycle, the offer
    modal, and the WhatsApp prefill message. Rendering is not modelled. */
module Page {
  import opened Wrappers
  import Js
  import JsString
  import Http
  import LeadRoute

  /** The `UTMParams` state: each entry is a string or undefined. */
  datatype UtmParams = UtmParams(utm_source: Option<string>, utm_medium: Option<string>, utm_campaign: Option<string>)

  const NoUtms := UtmParams(None, None, None)

  /** The `FormData` state of the contact form */
  datatype FormData = FormData(name: string, email: string, phone: string, notes: string)

  const EmptyForm := FormData("", "", "", "")

  datatype FormField = Name | Email | Phone | Notes

  /** The outcome of the client's request to the lead relay: the parsed JSON
      reply, or an error thrown by `fetch` or by `response.json()`. */
  datatype LeadReply = Answered(json: Js.Value) | Threw

  const FillRequiredAlert := "Por favor, completa todos los campos obligatorios."
  const ThanksAlert := "Gracias. Te contactamos en breve."
  const ErrorAlert := "Ha habido un error. Inténtalo de nuevo."

  const DefaultPrefill := "Hola, me interesa LoopTracer."
  const NamePlaceholder := "{nombre}"
  const CompanyPlaceholder := "{empresa}"

  /** `o || ''`: the value when it is truthy, and "" otherwise */
  function OrEmpty(o: Option<string>): (r: string)
    ensures Js.Str(r) == Js.Or(Js.Undefinable(o), Js.Str(""))
  {
    if Js.Present(o) then o.value else ""
  }

  /** `URLSearchParams.get(key)` on the decoded query pairs: the value of the
      first pair with that key, or None for null. */
  function QueryGet(query: seq<(string, string)>, key: string): (r: Option<string>)
    ensures r.None? <==> forall i :: 0 <= i < |query| ==> query[i].0 != key
    ensures r.Some? ==>
      exists i :: 0 <= i < |query| && query[i] == (key, r.value) &&
        forall j :: 0 <= j < i ==> query[j].0 != key
  {
    if query == [] then None
    else if query[0].0 == key then Some(query[0].1)
    else
      var r := QueryGet(query[1..], key);
      assert forall i :: 1 <= i < |query| ==> query[i] == query[1..][i - 1];
      r
  }

  /** `urlParams.get(key) || undefined` */
  function CaptureParam(query: seq<(string, string)>, key: string): (r: Option<string>)
    ensures r.None? <==> QueryGet(query, key).None? || QueryGet(query, key).value == ""
    ensures r.Some? ==> r == QueryGet(query, key)
  {
    var v := QueryGet(query, key);
    if Js.Present(v) then v else None
  }

  /** The `utmData` object built in the mount effect */
  function CaptureUtms(query: seq<(string, string)>): (u: UtmParams)
    ensures u.utm_source == CaptureParam(query, "utm_source")
    ensures u.utm_medium == CaptureParam(query, "utm_medium")
    ensures u.utm_campaign == CaptureParam(query, "utm_campaign")
    ensures u.utm_source.Some? ==> u.utm_source.value != ""
    ensures u.utm_medium.Some? ==> u.utm_medium.value != ""
    ensures u.utm_campaign.Some? ==> u.utm_campaign.value != ""
  {
    UtmParams(CaptureParam(query, "utm_source"), CaptureParam(query, "utm_medium"), CaptureParam(query, "utm_campaign"))
  }

  /** The minimal validation: name, email and phone must not be blank after
      `trim()`; notes are optional. An empty field never passes. */
  predicate RequiredFieldsFilled(f: FormData)
    ensures RequiredFieldsFilled(f) ==> f.name != "" && f.email != "" && f.phone != ""
  {
    JsString.Trim(f.name) != "" && JsString.Trim(f.email) != "" && JsString.Trim(f.phone) != ""
  }

  /** The form passes validation exactly when each of name, email and phone
      holds a character other than white space, whatever the notes are. */
  lemma RequiredFieldsFilledIff(f: FormData, notes: string)
    ensures RequiredFieldsFilled(f) <==>
      !JsString.AllWhiteSpace(f.name) && !JsString.AllWhiteSpace(f.email) && !JsString.AllWhiteSpace(f.phone)
    ensures RequiredFieldsFilled(f.(notes := notes)) == RequiredFieldsFilled(f)
  {
    JsString.TrimEmptyIff(f.name);
    JsString.TrimEmptyIff(f.email);
    JsString.TrimEmptyIff(f.phone);
  }

  /** The value the request body carries under `key`, or None when
      `JSON.stringify` leaves it out (an undefined UTM entry). The body is
      `{...formData, ...utms, path, userAgent}`. */
  function RequestFieldAt(f: FormData, u: UtmParams, path: string, userAgent: string, key: string): Option<Js.Value> {
    if key == "name" then Some(Js.Str(f.name))
    else if key == "email" then Some(Js.Str(f.email))
    else if key == "phone" then Some(Js.Str(f.phone))
    else if key == "notes" then Some(Js.Str(f.notes))
    else if key == "utm_source" then (if u.utm_source.Some? then Some(Js.Str(u.utm_source.value)) else None)
    else if key == "utm_medium" then (if u.utm_medium.Some? then Some(Js.Str(u.utm_medium.value)) else None)
    else if key == "utm_campaign" then (if u.utm_campaign.Some? then Some(Js.Str(u.utm_campaign.value)) else None)
    else if key == "path" then Some(Js.Str(path))
    else if key == "userAgent" then Some(Js.Str(userAgent))
    else None
  }

  /** The JSON object the form submit posts to the lead relay: always the
      four form fields, the path and the user agent; a UTM key exactly when
      that entry is defined; nothing else. */
  function LeadRequestBody(f: FormData, u: UtmParams, path: string, userAgent: string): (r: map<string, Js.Value>)
    ensures LeadRoute.RequiredKeys + {"path", "userAgent"} <= r.Keys <= LeadRoute.RequiredKeys + LeadRoute.OptionalKeys
    ensures "utm_source" in r <==> u.utm_source.Some?
    ensures "utm_medium" in r <==> u.utm_medium.Some?
    ensures "utm_campaign" in r <==> u.utm_campaign.Some?
  {
    map key | key in LeadRoute.RequiredKeys + LeadRoute.OptionalKeys && RequestFieldAt(f, u, path, userAgent, key).Some?
      :: RequestFieldAt(f, u, path, userAgent, key).value
  }

  /** `result.ok` is truthy; reading it from a null reply throws, which the
      handler treats like any other error. Only an object reply can succeed. */
  predicate ReplySucceeded(reply: LeadReply)
    ensures ReplySucceeded(reply) ==> reply.Answered? && reply.json.Obj?
  {
    reply.Answered? && Js.Properties(reply.json).Some? && Js.Truthy(Js.Get(Js.Properties(reply.json).value, "ok"))
  }

  /** Reading a key of the request body gives the value the submit put
      there, or undefined when it was left out. */
  lemma RequestBodyAt(f: FormData, u: UtmParams, path: string, userAgent: string, key: string)
    requires key in LeadRoute.RequiredKeys + LeadRoute.OptionalKeys
    ensures Js.Get(LeadRequestBody(f, u, path, userAgent), key) ==
      if RequestFieldAt(f, u, path, userAgent, key).Some? then RequestFieldAt(f, u, path, userAgent, key).value
      else Js.Undefined
  {
  }

  /** What the lead relay forwards from a form submit: the four form fields
      truncated to their bounds. */
  lemma SubmittedLeadSanitized(f: FormData, u: UtmParams, path: string, userAgent: string)
    ensures var r := LeadRoute.Sanitize(LeadRequestBody(f, u, path, userAgent));
      && r.name == JsString.SubstringTo(f.name, LeadRoute.NameMax)
      && r.email == JsString.SubstringTo(f.email, LeadRoute.EmailMax)
      && r.phone == JsString.SubstringTo(f.phone, LeadRoute.PhoneMax)
      && r.notes == JsString.SubstringTo(f.notes, LeadRoute.NotesMax)
  {
    RequestBodyAt(f, u, path, userAgent, "name");
    RequestBodyAt(f, u, path, userAgent, "email");
    RequestBodyAt(f, u, path, userAgent, "phone");
    RequestBodyAt(f, u, path, userAgent, "notes");
    Js.CoerceOrEmpty(Js.Str(f.name));
    Js.CoerceOrEmpty(Js.Str(f.email));
    Js.CoerceOrEmpty(Js.Str(f.phone));
    Js.CoerceOrEmpty(Js.Str(f.notes));
  }

  /** The path, user agent and UTM entries of a form submit reach the
      forwarded record exactly when they are non-empty, as strings. */
  lemma SubmittedOptionalsKept(f: FormData, u: UtmParams, path: string, userAgent: string)
    ensures var r := LeadRoute.Sanitize(LeadRequestBody(f, u, path, userAgent));
      && r.path == (if path != "" then Some(Js.Str(path)) else None)
      && r.userAgent == (if userAgent != "" then Some(Js.Str(userAgent)) else None)
      && r.utm_source == (if Js.Present(u.utm_source) then Some(Js.Str(u.utm_source.value)) else None)
      && r.utm_medium == (if Js.Present(u.utm_medium) then Some(Js.Str(u.utm_medium.value)) else None)
      && r.utm_campaign == (if Js.Present(u.utm_campaign) then Some(Js.Str(u.utm_campaign.value)) else None)
  {
    RequestBodyAt(f, u, path, userAgent, "path");
    RequestBodyAt(f, u, path, userAgent, "userAgent");
    RequestBodyAt(f, u, path, userAgent, "utm_source");
    RequestBodyAt(f, u, path, userAgent, "utm_medium");
    RequestBodyAt(f, u, path, userAgent, "utm_campaign");
  }

  /** The form treats the relay's reply as success exactly when the relay
      answered `{ok: true}` with status 200: the browser does not check the
      status, but every non-200 reply carries `ok: false`. */
  lemma ReplyReflectsRelay(gasLeadsEndpoint: Option<string>, request: Http.BodyRead, downstream: Http.FetchResult)
    ensures var x := LeadRoute.Post(gasLeadsEndpoint, request, downstream);
      ReplySucceeded(Answered(Http.ReplyJson(x.response.reply))) <==> x.response == Http.Ok200
  {
  }

  /** `s.replace(/^\/|\/$/g, '')`: drop one leading "/", then one trailing
      "/" unless it is the character already dropped. */
  function StripEdgeSlashes(s: string): (r: string)
    ensures |s| - 2 <= |r| <= |s|
    ensures (s == "" || (s[0] != '/' && s[|s| - 1] != '/')) ==> r == s
    ensures |s| >= 2 && s[0] == '/' && s[|s| - 1] == '/' ==> r == s[1..|s| - 1]
    ensures s == "/" ==> r == ""
    ensures |s| >= 1 && s[0] == '/' && !(|s| >= 2 && s[|s| - 1] == '/') ==> r == s[1..]
    ensures |s| >= 1 && s[0] != '/' && s[|s| - 1] == '/' ==> r == s[..|s| - 1]
  {
    var start := if |s| > 0 && s[0] == '/' then 1 else 0;
    var end := if |s| > start && s[|s| - 1] == '/' then |s| - 1 else |s|;
    s[start..end]
  }

  /** The campaign tag ``${utm_source || ''}/${utm_campaign || ''}`` with the
      edge slashes stripped: empty when neither entry is present, and
      otherwise the joined text less at most its two edge characters */
  function CampaignTag(u: UtmParams): (r: string)
    ensures !Js.Present(u.utm_source) && !Js.Present(u.utm_campaign) ==> r == ""
    ensures |OrEmpty(u.utm_source)| + |OrEmpty(u.utm_campaign)| - 1 <= |r| <= |OrEmpty(u.utm_source)| + |OrEmpty(u.utm_campaign)| + 1
  {
    StripEdgeSlashes(OrEmpty(u.utm_source) + "/" + OrEmpty(u.utm_campaign))
  }

  lemma CampaignTagSourceOnly(u: UtmParams)
    requires Js.Present(u.utm_source) && !Js.Present(u.utm_campaign)
    requires u.utm_source.value[0] != '/'
    ensures CampaignTag(u) == u.utm_source.value
  {
    var s := u.utm_source.value;
    assert (s + "/" + "")[..|s|] == s;
  }

  lemma CampaignTagCampaignOnly(u: UtmParams)
    requires !Js.Present(u.utm_source) && Js.Present(u.utm_campaign)
    requires u.utm_campaign.value[|u.utm_campaign.value| - 1] != '/'
    ensures CampaignTag(u) == u.utm_campaign.value
  {
    var c := u.utm_campaign.value;
    assert ("" + "/" + c)[1..] == c;
  }

  lemma CampaignTagBoth(u: UtmParams)
    requires Js.Present(u.utm_source) && Js.Present(u.utm_campaign)
    requires u.utm_source.value[0] != '/'
    requires u.utm_campaign.value[|u.utm_campaign.value| - 1] != '/'
    ensures CampaignTag(u) == u.utm_source.value + "/" + u.utm_campaign.value
  {
    var s, c := u.utm_source.value, u.utm_campaign.value;
    assert (s + "/" + c)[0] == s[0];
    assert (s + "/" + c)[|s + "/" + c| - 1] == c[|c| - 1];
  }

  /** A truthy source can still give an empty tag: "/" + "/" + "" strips to "". */
  lemma CampaignTagCanBeEmpty()
    ensures Js.Present(Some("/")) && CampaignTag(UtmParams(Some("/"), None, None)) == ""
  {
  }

  /** `s` holds neither placeholder */
  ghost predicate NoPlaceholders(s: string) {
    forall j: nat :: !JsString.OccursAt(s, NamePlaceholder, j) && !JsString.OccursAt(s, CompanyPlaceholder, j)
  }

  /** The configured prefill (or the default) with the first `{nombre}` and
      then the first `{empresa}` removed; a configured text without
      placeholders is used as it is. */
  function PrefillBase(prefillEnv: Option<string>): (r: string)
    ensures Js.Present(prefillEnv) && NoPlaceholders(prefillEnv.value) ==> r == prefillEnv.value
  {
    var configured := if Js.Present(prefillEnv) then prefillEnv.value else DefaultPrefill;
    JsString.ReplaceFirst(JsString.ReplaceFirst(configured, NamePlaceholder, ""), CompanyPlaceholder, "")
  }

  /** Without a configured prefill the message starts from the default text,
      which holds no placeholder. */
  lemma PrefillDefault(prefillEnv: Option<string>)
    requires !Js.Present(prefillEnv)
    ensures PrefillBase(prefillEnv) == DefaultPrefill
  {
    JsString.NoOccurrenceWithoutFirstChar(DefaultPrefill, NamePlaceholder);
    JsString.NoOccurrenceWithoutFirstChar(DefaultPrefill, CompanyPlaceholder);
  }

  /** The placeholders are removed where they first occur: the first
      `{nombre}` of the configured text, then the first `{empresa}` of what
      remains. */
  lemma PrefillRemovesFirstPlaceholders(prefill: string, i: nat, k: nat)
    requires JsString.FirstOccurrence(prefill, NamePlaceholder, i)
    requires JsString.FirstOccurrence(prefill[..i] + prefill[i + |NamePlaceholder|..], CompanyPlaceholder, k)
    ensures var once := prefill[..i] + prefill[i + |NamePlaceholder|..];
      PrefillBase(Some(prefill)) == once[..k] + once[k + |CompanyPlaceholder|..]
  {
    var once := prefill[..i] + prefill[i + |NamePlaceholder|..];
    JsString.ReplaceFirstAt(prefill, NamePlaceholder, "", i);
    assert JsString.ReplaceFirst(prefill, NamePlaceholder, "") == once;
    JsString.ReplaceFirstAt(once, CompanyPlaceholder, "", k);
  }

  /** The component's state */
  class Home {
    var utms: UtmParams
    var formData: FormData
    var isSubmitting: bool
    var isModalOpen: bool

    constructor ()
      ensures utms == NoUtms && formData == EmptyForm && !isSubmitting && !isModalOpen
    {
      utms := NoUtms;
      formData := EmptyForm;
      isSubmitting := false;
      isModalOpen := false;
    }

    /** The mount effect: capture the UTM parameters of the page's query. */
    method CaptureUtmsOnMount(query: seq<(string, string)>)
      modifies this`utms
      ensures utms == CaptureUtms(query)
    {
      var utmData := CaptureUtms(query);
      utms := utmData;
    }

    /** The `onChange` handler of one form input */
    method UpdateField(field: FormField, value: string)
      modifies this`formData
      ensures formData == match field
        case Name => old(formData).(name := value)
        case Email => old(formData).(email := value)
        case Phone => old(formData).(phone := value)
        case Notes => old(formData).(notes := value)
    {
      match field
      case Name => formData := formData.(name := value);
      case Email => formData := formData.(email := value);
      case Phone => formData := formData.(phone := value);
      case Notes => formData := formData.(notes := value);
    }

    /** `handleFormSubmit` up to its request: validate, then mark the form as
      submitting and build the request body. A blank required field alerts
      and changes nothing. */
    method BeginSubmit(path: string, userAgent: string) returns (request: Option<map<string, Js.Value>>, alertText: Option<string>)
      modifies this`isSubmitting
      ensures !RequiredFieldsFilled(formData) ==>
                request == None && alertText == Some(FillRequiredAlert) && isSubmitting == old(isSubmitting)
      ensures RequiredFieldsFilled(formData) ==>
                request == Some(LeadRequestBody(formData, utms, path, userAgent)) && alertText == None && isSubmitting
    {
      if !RequiredFieldsFilled(formData) {
        return None, Some(FillRequiredAlert);
      }
      isSubmitting := true;
      request := Some(LeadRequestBody(formData, utms, path, userAgent));
      alertText := None;
    }

    /** `handleFormSubmit` after its request: reset the form only on a reply
      with a truthy `ok`, and leave the submitting state on every path. */
    method FinishSubmit(reply: LeadReply) returns (alertText: string)
      modifies this`formData, this`isSubmitting
      ensures !isSubmitting
      ensures ReplySucceeded(reply) ==> formData == EmptyForm && alertText == ThanksAlert
      ensures !ReplySucceeded(reply) ==> formData == old(formData) && alertText == ErrorAlert
    {
      match reply {
        case Threw =>
          alertText := ErrorAlert;
        case Answered(json) =>
          match Js.Properties(json) {
            case None =>
              alertText := ErrorAlert;
            case Some(result) =>
              if Js.Truthy(Js.Get(result, "ok")) {
                alertText := ThanksAlert;
                formData := EmptyForm;
              } else {
                alertText := ErrorAlert;
              }
          }
      }
      isSubmitting := false;
    }

    /** The whole `handleFormSubmit`, with the reply to its request given */
    method HandleFormSubmit(path: string, userAgent: string, reply: LeadReply)
      returns (request: Option<map<string, Js.Value>>, alertText: string)
      modifies this`formData, this`isSubmitting
      ensures !RequiredFieldsFilled(old(formData)) ==>
                && request == None && alertText == FillRequiredAlert
                && formData == old(formData) && isSubmitting == old(isSubmitting)
      ensures RequiredFieldsFilled(old(formData)) ==>
                && request == Some(LeadRequestBody(old(formData), utms, path, userAgent))
                && !isSubmitting
                && formData == (if ReplySucceeded(reply) then EmptyForm else old(formData))
                && alertText == (if ReplySucceeded(reply) then ThanksAlert else ErrorAlert)
    {
      ghost var filled := RequiredFieldsFilled(formData);
      var rejected;
      request, rejected := BeginSubmit(path, userAgent);
      if rejected.Some? {
        assert !filled;
        alertText := rejected.value;
      } else {
        assert filled;
        alertText := FinishSubmit(reply);
      }
    }

    /** The "Saber más" button */
    method OpenModal()
      modifies this`isModalOpen
      ensures isModalOpen
    {
      isModalOpen := true;
    }

    /** The overlay and the close button */
    method CloseModal()
      modifies this`isModalOpen
      ensures !isModalOpen
    {
      isModalOpen := false;
    }

    /** `handleWhatsAppClick`: the text of the prefilled WhatsApp message. A
      campaign suffix is appended only when a UTM source or campaign is set
      and the tag built from them is non-empty. */
    method HandleWhatsAppClick(prefillEnv: Option<string>) returns (message: string)
      ensures (Js.Present(utms.utm_source) || Js.Present(utms.utm_campaign)) && CampaignTag(utms) != "" ==>
                message == PrefillBase(prefillEnv) + " (campaña: " + CampaignTag(utms) + ")"
      ensures !((Js.Present(utms.utm_source) || Js.Present(utms.utm_campaign)) && CampaignTag(utms) != "") ==>
                message == PrefillBase(prefillEnv)
    {
      var prefillMessage := if Js.Present(prefillEnv) then prefillEnv.value else DefaultPrefill;
      prefillMessage := JsString.ReplaceFirst(JsString.ReplaceFirst(prefillMessage, NamePlaceholder, ""), CompanyPlaceholder, "");
      assert prefillMessage == PrefillBase(prefillEnv);
      if Js.Present(utms.utm_source) || Js.Present(utms.utm_campaign) {
        var campaign := StripEdgeSlashes(OrEmpty(utms.utm_source) + "/" + OrEmpty(utms.utm_campaign));
        assert campaign == CampaignTag(utms);
        if campaign != "" {
          prefillMessage := prefillMessage + " (campaña: " + campaign + ")";
        }
      }
      message := prefillMessage;
    }

    /** The modal's call to action: close the modal, then run the WhatsApp
      handler. */
    method ModalCallToAction(prefillEnv: Option<string>) returns (message: string)
      modifies this`isModalOpen
      ensures !isModalOpen
      ensures (Js.Present(utms.utm_source) || Js.Present(utms.utm_campaign)) && CampaignTag(utms) != "" ==>
                message == PrefillBase(prefillEnv) + " (campaña: " + CampaignTag(utms) + ")"
      ensures !((Js.Present(utms.utm_source) || Js.Present(utms.utm_campaign)) && CampaignTag(utms) != "") ==>
                message == PrefillBase(prefillEnv)
    {
      CloseModal();
      message := HandleWhatsAppClick(prefillEnv);
    }
  }
}
