/** `BaseHTTPClient._handle_response`: success responses pass through; every
    other status becomes a typed SDK error whose message is taken from the
    body when it parses as an error payload, from the raw text otherwise, and
    is synthesised from the status code as a last resort. A 401 also drops
    the cached token. */
module Classifier {
  import opened Outcomes
  import opened Json
  import opened Errors
  import Text

  /** What the classifier sees of an HTTP response: the status code, the body
      decoded as JSON (`None` when `response.json()` raises) and the raw text. */
  datatype Response = Response(status: int, json: Option<Json>, text: string)

  /** `response.is_success`. */
  predicate IsSuccess(status: int) {
    200 <= status <= 299
  }

  /** The `errors` field of an error payload: a string or a list of strings. */
  datatype ErrorsField = ErrorsText(s: string) | ErrorsList(xs: seq<string>)

  /** The pydantic `ErrorResponse` model. */
  datatype ErrorBody = ErrorBody(errors: ErrorsField, message: Option<string>)

  /** The `errors` field validates as `str | list[str]`, and keeps its text. */
  function ParseErrorsField(j: Json): (r: Option<ErrorsField>)
    ensures r.Some? <==> j.JStr? || (j.JArr? && forall i :: 0 <= i < |j.items| ==> j.items[i].JStr?)
    ensures j.JStr? ==> r == Some(ErrorsText(j.s))
    ensures j.JArr? && r.Some? ==>
      r.value.ErrorsList? && |r.value.xs| == |j.items| && forall i :: 0 <= i < |j.items| ==> j.items[i] == JStr(r.value.xs[i])
  {
    match j
    case JStr(s) => Some(ErrorsText(s))
    case JArr(items) =>
      if forall i :: 0 <= i < |items| ==> items[i].JStr? then
        Some(ErrorsList(seq(|items|, i requires 0 <= i < |items| => items[i].s)))
      else None
    case _ => None
  }

  /** `message: str | None = None`: missing, null or a string. */
  predicate MessageValid(m: Option<Json>) {
    m.None? || m.value.JNull? || m.value.JStr?
  }

  /** `ErrorResponse(**error_data)`: the body must be an object whose
      `errors` is a string or a list of strings and whose optional
      `message` is a string or null; anything else raises. */
  function ParseErrorBody(j: Json): (r: Option<ErrorBody>)
    // it parses exactly when `errors` validates and `message` is missing, null or a string
    ensures r.Some? <==>
      && j.JObj?
      && Lookup(j.fields, "errors").Some?
      && ParseErrorsField(Lookup(j.fields, "errors").value).Some?
      && MessageValid(Lookup(j.fields, "message"))
    // and then it keeps both fields
    ensures r.Some? ==> r.value.errors == ParseErrorsField(Lookup(j.fields, "errors").value).value
    ensures r.Some? ==>
      (r.value.message.Some? <==> Lookup(j.fields, "message").Some? && Lookup(j.fields, "message").value.JStr?)
    ensures r.Some? && r.value.message.Some? ==> Lookup(j.fields, "message") == Some(JStr(r.value.message.value))
  {
    if !j.JObj? then None
    else
      var errs := Lookup(j.fields, "errors");
      var parsed := if errs.Some? then ParseErrorsField(errs.value) else None;
      var message := Lookup(j.fields, "message");
      if parsed.None? then None
      else if message.None? || message.value.JNull? then Some(ErrorBody(parsed.value, None))
      else if message.value.JStr? then Some(ErrorBody(parsed.value, Some(message.value.s)))
      else None
  }

  /** `str(error_response.errors)`. */
  function ErrorsToString(e: ErrorsField): string {
    match e
    case ErrorsText(s) => s
    case ErrorsList(xs) => Text.ReprList(xs)
  }

  /** The parsed error payload of a response, when there is one. */
  function ErrorPayload(r: Response): Option<ErrorBody> {
    if r.json.Some? then ParseErrorBody(r.json.value) else None
  }

  /** The message of the raised error, chosen in four steps. */
  function ErrorMessage(r: Response): (m: string)
    // 1. a non-empty `message` in the payload
    ensures ErrorPayload(r).Some? && ErrorPayload(r).value.message.Some? && ErrorPayload(r).value.message.value != ""
      ==> m == ErrorPayload(r).value.message.value
    // 2. otherwise the payload's `errors`, as Python's str() renders it
    ensures ErrorPayload(r).Some? && (ErrorPayload(r).value.message.None? || ErrorPayload(r).value.message.value == "")
      ==> m == ErrorsToString(ErrorPayload(r).value.errors)
    // 3. without a payload, the raw text
    ensures ErrorPayload(r).None? && r.text != "" ==> m == r.text
    // 4. and when that is empty too, "HTTP <code>"
    ensures ErrorPayload(r).None? && r.text == "" ==> m == "HTTP " + Text.IntToString(r.status)
  {
    match ErrorPayload(r)
    case Some(body) =>
      if body.message.Some? && body.message.value != "" then body.message.value
      else ErrorsToString(body.errors)
    case None =>
      if r.text != "" then r.text else "HTTP " + Text.IntToString(r.status)
  }

  /** The message is empty only when the payload parses, has no message and
      its `errors` is the empty string; the fallbacks never give "". */
  lemma ErrorMessageEmpty(r: Response)
    ensures ErrorMessage(r) == "" <==>
      ErrorPayload(r).Some? &&
      (ErrorPayload(r).value.message.None? || ErrorPayload(r).value.message.value == "") &&
      ErrorPayload(r).value.errors == ErrorsText("")
  {
  }

  /** The classifier's verdict and the token cache it leaves behind. */
  datatype Handled = Handled(token: Option<string>, result: Result<Response, AltPEError>)

  /** `_handle_response`, given the token currently cached. */
  function HandleResponse(token: Option<string>, r: Response): (h: Handled)
    // 2xx passes through untouched; nothing else does
    ensures h.result.Ok? <==> IsSuccess(r.status)
    ensures h.result.Ok? ==> h.result.value == r
    // only a 401 touches the cache, and it empties it
    ensures h.token == (if r.status == 401 then None else token)
    // the decision table, in both directions
    ensures h.result.Err? ==>
      && (h.result.error.cls == Authentication <==> r.status == 401)
      && (h.result.error.cls == NotFound <==> r.status == 404)
      && (h.result.error.cls == Validation <==> r.status == 422)
      && (h.result.error.cls == RateLimit <==> r.status == 429)
      && (h.result.error.cls == Server <==> r.status >= 500)
      && (h.result.error.cls == Base <==> r.status < 500 && r.status !in {401, 404, 422, 429})
    ensures h.result.Err? ==> h.result.error.message == ErrorMessage(r)
    // the status lands in `status_code`, except for ValidationError, whose
    // constructor stores it in `errors`
    ensures h.result.Err? && h.result.error.cls != Validation ==>
      h.result.error.statusCode == Some(r.status) && h.result.error.errors.None?
    ensures h.result.Err? && h.result.error.cls == Validation ==>
      h.result.error.statusCode.None? && h.result.error.errors == Some(JInt(422))
  {
    if IsSuccess(r.status) then Handled(token, Ok(r))
    else
      var message := ErrorMessage(r);
      if r.status == 401 then Handled(None, Err(NewError(Authentication, message, Some(r.status))))
      else if r.status == 404 then Handled(token, Err(NewError(NotFound, message, Some(r.status))))
      else if r.status == 422 then Handled(token, Err(NewValidationError(message, Some(JInt(r.status)))))
      else if r.status == 429 then Handled(token, Err(NewError(RateLimit, message, Some(r.status))))
      else if r.status >= 500 then Handled(token, Err(NewError(Server, message, Some(r.status))))
      else Handled(token, Err(NewError(Base, message, Some(r.status))))
  }

  /** The status code a classified error was raised for. */
  function RaisedFor(e: AltPEError): Option<int> {
    if e.cls == Validation then
      (if e.errors.Some? && e.errors.value.JInt? then Some(e.errors.value.i) else None)
    else e.statusCode
  }

  /** No classified error loses its status: it can be read back from
      `status_code`, or from `errors` for a ValidationError. */
  lemma ClassifiedStatusRecoverable(token: Option<string>, r: Response)
    requires !IsSuccess(r.status)
    ensures RaisedFor(HandleResponse(token, r).result.error) == Some(r.status)
  {
  }

  /** Redirects, 400 and 403 are neither success nor one of the specific
      classes: they raise the plain base error. */
  lemma OtherStatusesAreGeneric(token: Option<string>, r: Response)
    requires 300 <= r.status <= 399 || r.status == 400 || r.status == 403
    ensures HandleResponse(token, r).result.Err?
    ensures HandleResponse(token, r).result.error.cls == Base
    ensures HandleResponse(token, r).token == token
  {
  }
}
