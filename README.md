# LoopTracer landing page: relay handlers and page logic in Dafny

This project models the behaviour of the LoopTracer marketing landing page,
a Next.js application. The page has a contact form and logs pageviews and
WhatsApp clicks. Two server routes relay these submissions to a
spreadsheet-backed webhook:

- **Lead relay** (`POST /api/lead`) coerces and truncates the form fields,
  drops falsy optional fields, forwards the record and reports real failure:
  a missing endpoint, a non-ok downstream status and any thrown error all
  give a 500.
- **Log relay** (`POST /api/log`) forwards an event best-effort. It answers
  `{ok: true}` with status 200 on every path.
- **Page** (`Home`) captures UTM parameters on mount and validates and
  submits the form. It toggles the offer modal and builds the WhatsApp
  prefill message with an optional campaign suffix.

Modules, one per source file or shared concern:

- `Js` (js.dfy): JSON-shaped JavaScript values, truthiness, `||`, property
  reads and `String()` coercion.
- `JsString` (js_string.dfy): `substring(0, n)`, `trim()`, `indexOf` and
  `replace` with a string pattern.
- `Http` (http.dfy): the shapes both handlers share. These are the
  environment entry, the body-read outcome, the outbound-call outcome and the
  response. Each handler keeps its own result policy.
- `LeadRoute` (lead_route.dfy) and `LogRoute` (log_route.dfy): the two
  handlers, each a pure function of its configuration, the parsed body and
  the downstream outcome. Each returns an `Exchange`: whether the body was
  read, what was forwarded and the response.
- `Page` (page.dfy): pure functions for validation, UTM capture, the
  campaign tag and the prefill, plus a `Home` class. `Home` holds the
  component state (`utms`, `formData`, `isSubmitting`, `isModalOpen`), and
  its methods are the event handlers.

External effects are inputs:

- `process.env` entries are `Option<string>` parameters.
- `request.json()` is a `BodyRead`: a parsed value or a parse error.
- The outbound `fetch` is a `FetchResult`: an HTTP status or a network error.
- The client's request to the lead relay is a `LeadReply`: a parsed JSON
  reply or a thrown error.
- The query string is a sequence of decoded key/value pairs.
- The pathname and the user agent are strings.

Behaviour worth noting:

- A truthy name, email, phone or notes that is not a string goes through
  `String()` before it is cut to length. So the number `42` is forwarded as
  `"42"` and an object as `"[object Object]"` (`Js.ToStr`).
- The optional attribution fields are forwarded as whatever truthy value the
  body holds, unchanged (`Js.KeptIfTruthy`).
- A JSON body of `null` makes reading `body.name` throw, so the lead relay
  answers 500. The log relay answers 200 in that case too.

## Model

| member | source | states |
|---|---|---|
| Js.DropFalsy | app/api/lead/route.ts:22-26 | `x \|\| undefined` in a serialised object keeps the field exactly when `x` is truthy, and then as `x` itself (also app/api/log/route.ts lines 17-21) |
| Js.Present | app/api/lead/route.ts:5-7 | a `string \| undefined` is truthy exactly when it is set and non-empty: the guard `!gasEndpoint`, and the same test at app/api/log/route.ts line 8 and app/page.tsx lines 33-35, 78 and 81 |
| Js.Get | app/api/lead/route.ts:18-26 | `body.key` reads the property's value, or undefined for a missing key |
| Js.Properties | app/api/lead/route.ts:14-26 | reading a property of the parsed body throws exactly when the body is null or undefined |
| Js.CoerceOrEmpty | app/api/lead/route.ts:18-21 | coercing a falsy value, after the empty-string default, gives "", and a string coerces to itself |
| Js.Truthy | app/api/lead/route.ts:18-26 | every array and object is truthy, and a truthy value is never null or undefined, so a property read on it does not throw |
| Js.Or | app/api/lead/route.ts:18-21 | `a \|\| b` is one of its operands, the first when that is truthy, and is truthy exactly when either operand is |
| Js.ToStr | app/api/lead/route.ts:18-21 | `String()` returns a string unchanged, renders a number as its decimal text, and gives a non-empty string for every truthy value other than an array |
| Js.Join | app/api/lead/route.ts:18-21 | an array's `String()` is "" when empty, a lone element's rendering when it has one, and otherwise starts with the first element's rendering followed by "," and is at least one character per separator long |
| Js.NatToDecimal | app/api/lead/route.ts:18-21 | a natural number renders as non-empty decimal digits without a leading zero whose value is the number |
| Js.IntToDecimal | app/api/lead/route.ts:18-21 | an integer renders with a leading "-" exactly when negative, followed by the decimal rendering of its magnitude |
| Js.EmptyArrayCoercesEmpty | app/api/lead/route.ts:18-21 | an empty array is truthy yet coerces to "", so the forwarded field is "" |
| JsString.SubstringTo | app/api/lead/route.ts:18-21 | `substring(0, n)` is a prefix of its input of length min(length, n) |
| JsString.SubstringWithinBound | app/api/lead/route.ts:18-21 | a string already within the bound is returned unchanged |
| JsString.IsWhiteSpace | app/page.tsx:100 | the characters `trim()` removes include space, tab, line feed and carriage return, and no visible ASCII character |
| JsString.TrimStart | app/page.tsx:100 | the result is a suffix of the input, every dropped character is white space, and the result does not start with white space |
| JsString.TrimEnd | app/page.tsx:100 | the result is a prefix of the input, every dropped character is white space, and the result does not end with white space |
| JsString.Trim | app/page.tsx:100 | `trim()` is no longer than its input and neither starts nor ends with white space |
| JsString.TrimEmptyIff | app/page.tsx:100 | `trim()` gives "" if and only if every character is white space |
| JsString.IndexFrom | app/page.tsx:79 | the search from an offset returns the first occurrence at or after it, or none exists |
| JsString.IndexOf | app/page.tsx:79 | the result is the first occurrence of the pattern, and it is absent exactly when the pattern occurs nowhere |
| JsString.ReplaceFirst | app/page.tsx:79 | a string-pattern `replace` changes only the first occurrence, and leaves a string without one unchanged |
| JsString.ReplaceFirstAt | app/page.tsx:79 | given the first occurrence, the result is the text before it, the replacement, and the text after it |
| JsString.NoOccurrenceWithoutFirstChar | app/page.tsx:78-79 | a pattern whose first character is absent from the text occurs nowhere in it |
| Http.StatusOk | app/api/lead/route.ts:38 | `response.ok` holds exactly for the 2xx statuses |
| Http.ReplyJson | app/api/lead/route.ts:42-48 | the response body has a truthy `ok` exactly for `{ok: true}` |
| LeadRoute.Sanitize | app/api/lead/route.ts:17-27 | name, email, phone and notes are prefixes of their coerced inputs of length min(length, 120/160/60/500); the five optional fields are present exactly when truthy, and then unchanged |
| LeadRoute.Payload | app/api/lead/route.ts:35 | the forwarded JSON always has name, email, phone and notes, and no keys beyond the nine fields |
| LeadRoute.PayloadLookup | app/api/lead/route.ts:35 | each string field reads back from the forwarded JSON as its record value |
| LeadRoute.PayloadLookupOptional | app/api/lead/route.ts:35 | an optional field reads back as its value, or as undefined when it was dropped |
| LeadRoute.SanitizeShape | app/api/lead/route.ts:18-26 | every sanitised record is within all four bounds, and no optional field is forwarded as "", null or another falsy value |
| LeadRoute.FalsyBecomesEmpty | app/api/lead/route.ts:18-21 | a missing or falsy name, email, phone or notes is forwarded as "", never absent |
| LeadRoute.WithinBoundUnchanged | app/api/lead/route.ts:18-21 | a string field within its bound is forwarded unchanged |
| LeadRoute.SanitizeFixesSanitized | app/api/lead/route.ts:17-27 | a record within bounds whose optional fields are truthy is reproduced exactly by sanitising its own payload |
| LeadRoute.SanitizeIdempotent | app/api/lead/route.ts:17-27 | sanitising the forwarded payload again changes nothing |
| LeadRoute.Post | app/api/lead/route.ts:3-51 | unset endpoint: 500 "GAS_LEADS_ENDPOINT not configured", with no body read and no call; the sanitised body is forwarded exactly when the endpoint is set and the body readable; the response is `{ok: true}`/200 if and only if it was forwarded and the status was ok; every other configured path is 500 "Internal server error" |
| LeadRoute.DownstreamFailureIsInternalError | app/api/lead/route.ts:38-49 | a non-ok status and a network error both give the same generic 500, after the record was forwarded |
| LogRoute.LogData | app/api/log/route.ts:15-22 | `type` is the input when truthy and "unknown" otherwise; path, UTM fields and userAgent are present exactly when truthy, and then unchanged |
| LogRoute.Endpoint | app/api/log/route.ts:6 | the endpoint is configured if either entry is; it is the logs endpoint when set, otherwise the leads endpoint |
| LogRoute.Post | app/api/log/route.ts:3-41 | the response is `{ok: true}`/200 on every path; the body is read exactly when an endpoint is configured, and the event is forwarded exactly when the body is also readable |
| LogRoute.FailurePolicyAsymmetry | app/api/log/route.ts:25-39 | with no logs endpoint configured, on the same leads endpoint, body and downstream outcome, the log relay always answers 200 while the lead relay answers 200 only when the downstream call succeeds, and both forward exactly when the other does |
| Page.OrEmpty | app/page.tsx:82 | `o \|\| ''` is the JavaScript `\|\|` of the entry with "": the value when truthy, "" otherwise |
| Page.QueryGet | app/page.tsx:33-35 | `URLSearchParams.get` returns the value of the first pair with the key, or null when no pair has it |
| Page.CaptureParam | app/page.tsx:33-35 | a missing or empty query value is captured as absent, and any other value is captured as it is |
| Page.CaptureUtms | app/page.tsx:32-36 | each of the three UTM entries is captured from its query key and is never the empty string |
| Page.RequiredFieldsFilled | app/page.tsx:100 | a form with an empty name, email or phone never passes validation |
| Page.RequiredFieldsFilledIff | app/page.tsx:100 | validation passes if and only if name, email and phone each hold a character other than white space; notes play no part |
| Page.LeadRequestBody | app/page.tsx:111-116 | the request body always holds the four form fields, the path and the user agent, holds a UTM key exactly when that entry is defined, and holds nothing else |
| Page.ReplySucceeded | app/page.tsx:121 | only a reply that parsed to a JSON object can count as success |
| Page.RequestBodyAt | app/page.tsx:111-116 | each key of the submit's request body reads back as the form field, UTM entry, path or user agent put there, or as undefined for an unset UTM entry |
| Page.SubmittedLeadSanitized | app/page.tsx:108-116 | the lead relay forwards the four form fields of a submit truncated to their bounds |
| Page.SubmittedOptionalsKept | app/page.tsx:108-116 | path, userAgent and the UTM entries of a submit are forwarded exactly when non-empty, as strings |
| Page.ReplyReflectsRelay | app/page.tsx:119-121 | the form treats the relay's reply as success if and only if the relay answered `{ok: true}` with 200 |
| Page.StripEdgeSlashes | app/page.tsx:82 | the regex leaves a string without edge slashes unchanged, drops only the leading slash when just that is present, only the trailing slash when just that is present, both when both are (of a string of two or more), and turns "/" into "" |
| Page.CampaignTag | app/page.tsx:82 | the tag is empty when neither source nor campaign is present, and its length is within one of the source and campaign lengths together: the joined text loses at most its two edge slashes |
| Page.CampaignTagSourceOnly | app/page.tsx:82 | with only a source s, which does not start with "/", the tag is s |
| Page.CampaignTagCampaignOnly | app/page.tsx:82 | with only a campaign c, which does not end with "/", the tag is c |
| Page.CampaignTagBoth | app/page.tsx:82 | with both set (no leading slash on s, no trailing slash on c), the tag is "s/c" |
| Page.CampaignTagCanBeEmpty | app/page.tsx:81-83 | a truthy source "/" gives an empty tag, so the check on the tag at line 83 matters |
| Page.PrefillBase | app/page.tsx:78-79 | a configured prefill holding neither placeholder is used as it is |
| Page.PrefillDefault | app/page.tsx:78-79 | without a configured prefill the message is "Hola, me interesa LoopTracer.", unchanged by the placeholder removal |
| Page.PrefillRemovesFirstPlaceholders | app/page.tsx:79 | the first `{nombre}` is removed, then the first `{empresa}` of what remains |
| Page.Home.constructor | app/page.tsx:19-27 | no UTMs, four empty form fields, not submitting, modal closed |
| Page.Home.CaptureUtmsOnMount | app/page.tsx:29-37 | the UTM state becomes the captured query parameters, and nothing else changes |
| Page.Home.UpdateField | app/page.tsx:242-275 | an input's change handler replaces exactly that field of the form data |
| Page.Home.BeginSubmit | app/page.tsx:96-117 | a blank required field alerts, sends nothing and leaves the form data and `isSubmitting` unchanged; otherwise `isSubmitting` becomes true and the request body is the form data with UTMs, path and userAgent |
| Page.Home.FinishSubmit | app/page.tsx:119-131 | `isSubmitting` is false on every path; the form data is reset to empty strings only for a reply with truthy `ok`, and is otherwise unchanged |
| Page.Home.HandleFormSubmit | app/page.tsx:96-132 | the whole submit: a rejected form changes nothing; an accepted one sends the body, clears `isSubmitting`, and resets the form only on success; one alert on every path |
| Page.Home.OpenModal | app/page.tsx:144 | the modal is open afterwards |
| Page.Home.CloseModal | app/page.tsx:300-312 | the modal is closed afterwards |
| Page.Home.HandleWhatsAppClick | app/page.tsx:78-86 | the message is the prefill with placeholders removed, plus " (campaña: tag)" exactly when a source or campaign is set and the tag is non-empty |
| Page.Home.ModalCallToAction | app/page.tsx:499-502 | the modal is closed and the WhatsApp message is built as above |

## Left out

- Network and runtime plumbing: the real `fetch` calls,
  `request.json()`, `JSON.stringify`, `NextResponse` and reading
  `process.env`. Each is an input or an outcome value; a key that
  `JSON.stringify` drops is an absent key in a map.
- Key order, escaping and other serialisation details of the forwarded JSON,
  which is modelled as a map from key to value.
- Operator logging (`console.log`, `console.error`): it has no effect on
  any result.
- Browser I/O: `alert` becomes a returned alert text. `window.open`, the
  120 ms `setTimeout`, `window.location`, `navigator.userAgent` and the
  parsing and percent-decoding done by `URLSearchParams` are not modelled;
  the pathname, the user agent and the decoded query pairs are inputs.
- The wa.me URL and `encodeURIComponent` (app/page.tsx:88): a library
  encoder. Only the message text before encoding is modelled.
- The telemetry requests that the page sends to the log relay (the pageview
  at app/page.tsx:43-58 and the click event at app/page.tsx:62-75). Their
  errors are swallowed and they affect no page state.
- JavaScript numbers are modelled as integers. Fractional numbers, and the
  exponent form `String()` gives for magnitudes of 1e21 and above, are not
  modelled.
- A JSON object whose own `toString` or `valueOf` key changes what
  `String()` does. Every object coerces to "[object Object]".
- Property reads on primitives and arrays return undefined for the named
  keys the handlers read. Index and built-in keys are not modelled.
- Strings are sequences of Dafny characters, not UTF-16 code units, so
  surrogate pairs are not split the way `substring` can split them.
- Concurrency and asynchrony: each request is handled separately. React's
  batched state updates and the closure that captures `formData` become
  sequential field updates. `BeginSubmit` and `FinishSubmit` are the two
  halves of the handler around its await.
- The submit button being disabled while `isSubmitting`: rendering, as is
  all other markup, styling and copy (including the offer deadline at
  app/page.tsx:134).
- app/layout.tsx and tailwind.config.js: static metadata and styling.
