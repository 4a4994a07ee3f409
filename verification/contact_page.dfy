/**
 * The client side of the contact form: the form schema that gates submission,
 * obtaining a reCAPTCHA token, the JSON body posted to the endpoint, and how the
 * endpoint's reply becomes a success banner or an alert.
 */
module ContactPage {
  import opened Wrappers
  import opened Js
  import opened Zod
  import ContactRoute

  /** formSchema, field by field in declaration order. */
  const ClientSchema: seq<FieldRule> := [
    FieldRule("name", MinLength(2, "Name is required")),
    FieldRule("email", EmailFormat("Invalid email address")),
    FieldRule("phone", MinLength(10, "Phone number is required")),
    FieldRule("eventType", MinLength(1, "Please select an event type")),
    FieldRule("date", OptionalString),
    FieldRule("message", MinLength(10, "Message must be at least 10 characters"))
  ]

  /** The values the form holds when submitted (`date` is unset when the input never registered one). */
  datatype FormData = FormData(
    name: string,
    email: string,
    phone: string,
    eventType: string,
    date: Option<string>,
    message: string)

  /** The form values as a JSON object; an unset date is left out, as JSON.stringify does. */
  function FormFields(d: FormData): (f: map<string, Value>)
    ensures "recaptchaToken" !in f
  {
    var base := map[
      "name" := Str(d.name), "email" := Str(d.email), "phone" := Str(d.phone),
      "eventType" := Str(d.eventType), "message" := Str(d.message)];
    if d.date.Some? then base["date" := Str(d.date.value)] else base
  }

  /** The resolver lets the submission through. */
  predicate FormValid(d: FormData, emailOk: string -> bool) {
    Accepts(ClientSchema, Object(FormFields(d)), emailOk)
  }

  /** The client schema is the server schema without its token field. */
  lemma ClientSchemaIsServerPrefix()
    ensures ClientSchema == ContactRoute.ServerSchema[..6]
    ensures ContactRoute.ServerSchema == ClientSchema + [FieldRule("recaptchaToken", MinLength(1, "reCAPTCHA token is required"))]
  {
  }

  /** The form is accepted exactly when every constraint of formSchema holds. */
  lemma FormValidMeans(d: FormData, emailOk: string -> bool)
    ensures FormValid(d, emailOk) <==>
              |d.name| >= 2 && emailOk(d.email) && |d.phone| >= 10 && |d.eventType| >= 1 && |d.message| >= 10
  {
    var f := FormFields(d);
    var s := ClientSchema;
    assert FieldValue(s, 0, f) == Str(d.name);
    assert FieldValue(s, 1, f) == Str(d.email);
    assert FieldValue(s, 2, f) == Str(d.phone);
    assert FieldValue(s, 3, f) == Str(d.eventType);
    assert FieldValue(s, 4, f) == (if d.date.Some? then Str(d.date.value) else Undefined);
    assert FieldValue(s, 5, f) == Str(d.message);
    if |d.name| >= 2 && emailOk(d.email) && |d.phone| >= 10 && |d.eventType| >= 1 && |d.message| >= 10 {
      forall i | 0 <= i < |s| ensures Satisfies(s[i].rule, FieldValue(s, i, f), emailOk) {
        assert i == 0 || i == 1 || i == 2 || i == 3 || i == 4 || i == 5;
      }
    }
    if FormValid(d, emailOk) {
      assert Satisfies(s[0].rule, FieldValue(s, 0, f), emailOk);
      assert Satisfies(s[1].rule, FieldValue(s, 1, f), emailOk);
      assert Satisfies(s[2].rule, FieldValue(s, 2, f), emailOk);
      assert Satisfies(s[3].rule, FieldValue(s, 3, f), emailOk);
      assert Satisfies(s[5].rule, FieldValue(s, 5, f), emailOk);
    }
  }

  /** The "Select Type" placeholder option has the empty value, which the form always rejects. */
  lemma PlaceholderEventTypeRejected(d: FormData, emailOk: string -> bool)
    requires d.eventType == ""
    ensures !FormValid(d, emailOk)
  {
    FormValidMeans(d, emailOk);
  }

  // ---------------------------------------------------------------------------
  // getRecaptchaToken
  // ---------------------------------------------------------------------------

  const NotLoaded: string := "reCAPTCHA not loaded yet. Please try again."
  const ExecuteFailed: string := "Failed to execute reCAPTCHA"

  /** What `grecaptcha.execute` settles with: a token, a rejection with an Error, or another rejection. */
  datatype Execution = Executed(token: string) | FailedWithError(message: string) | FailedOther

  /** The promise of getRecaptchaToken: resolved with a token or `null`, or rejected with a message. */
  datatype TokenResult = Resolved(token: Option<string>) | Rejected(message: string)

  /**
   * getRecaptchaToken, given the configured site key, whether the reCAPTCHA
   * script has loaded, and what execution would give.
   */
  function GetRecaptchaToken(siteKey: Option<string>, loaded: bool, execution: Execution): (r: TokenResult)
    ensures r == Resolved(None) <==> !Configured(siteKey)
    ensures Configured(siteKey) && !loaded ==> r == Rejected(NotLoaded)
    ensures Configured(siteKey) && loaded ==> (r.Resolved? <==> execution.Executed?)
    ensures r.Resolved? && r.token.Some? ==> Configured(siteKey) && loaded && execution == Executed(r.token.value)
    ensures r.Rejected? && loaded && execution.FailedWithError? ==> r.message == execution.message
    ensures Configured(siteKey) && loaded && execution.FailedOther? ==> r == Rejected(ExecuteFailed)
  {
    if !Configured(siteKey) then Resolved(None)
    else if !loaded then Rejected(NotLoaded)
    else
      match execution
      case Executed(token) => Resolved(Some(token))
      case FailedWithError(message) => Rejected(message)
      case FailedOther => Rejected(ExecuteFailed)
  }

  /** The JSON object posted: the form's fields plus the token, a `null` token being sent as JSON null. */
  function RequestBody(d: FormData, token: Option<string>): Payload {
    Object(FormFields(d)["recaptchaToken" := if token.Some? then Str(token.value) else Null])
  }

  // ---------------------------------------------------------------------------
  // Interpreting the reply
  // ---------------------------------------------------------------------------

  const UnexpectedResponse: string := "Unexpected server response"
  const FailedToSend: string := "Failed to send message"

  /** What JSON.parse makes of a non-empty reply: an object (with its `error`), another value, null, or an exception. */
  datatype JsonParse = ParsedObject(error: Value) | ParsedOther | ParsedNull | Unparseable

  /** The `result` variable: an object whose `error` property is known, or `null`. */
  datatype ResultObject = ResultObject(error: Value) | NullResult

  /**
   * The reply text as the page reads it: an empty text is taken as an empty
   * object without parsing; otherwise it is parsed, and a parse failure gives
   * an object whose `error` is the text itself (or the fixed "unexpected
   * response" text, were the text empty).
   */
  function InterpretBody(raw: string, parse: JsonParse): (r: ResultObject)
    ensures raw == "" ==> r == ResultObject(Undefined)
    ensures raw != "" && parse.Unparseable? ==> r == ResultObject(Str(raw))
    ensures raw != "" && parse.ParsedObject? ==> r == ResultObject(parse.error)
    ensures raw != "" && parse.ParsedOther? ==> r == ResultObject(Undefined)
    ensures r.NullResult? <==> raw != "" && parse.ParsedNull?
  {
    if raw == "" then ResultObject(Undefined)
    else
      match parse
      case ParsedObject(error) => ResultObject(error)
      case ParsedOther => ResultObject(Undefined)
      case ParsedNull => NullResult
      case Unparseable => ResultObject(Str(if raw != "" then raw else UnexpectedResponse))
  }

  /** Since JSON.parse is only tried on a non-empty reply, "Unexpected server response" is never chosen. */
  lemma UnexpectedResponseNeverChosen(raw: string, parse: JsonParse)
    requires InterpretBody(raw, parse) == ResultObject(Str(UnexpectedResponse))
    ensures raw == UnexpectedResponse || parse == ParsedObject(Str(UnexpectedResponse))
  {
  }

  /** What the user ends up seeing. */
  datatype UiOutcome =
    | Blocked(issues: seq<Issue>)   // the resolver refused the form; nothing is sent
    | Succeeded                     // the success banner
    | Alerted(message: Value)       // an alert with this message
    | AlertedTypeError              // a `null` reply body made `result.error` throw; its engine message is shown

  /**
   * A 2xx reply is a success whatever its body. Any other reply raises an error
   * whose message is the reply's `error` when truthy, or a fixed text otherwise.
   */
  function Conclude(ok: bool, result: ResultObject): (u: UiOutcome)
    ensures ok ==> u == Succeeded
    ensures !ok && result.ResultObject? && Truthy(result.error) ==> u == Alerted(result.error)
    ensures !ok && result.ResultObject? && !Truthy(result.error) ==> u == Alerted(Str(FailedToSend))
    ensures !ok && result.NullResult? ==> u == AlertedTypeError
  {
    if ok then Succeeded
    else
      match result
      case NullResult => AlertedTypeError
      case ResultObject(error) => Alerted(if Truthy(error) then error else Str(FailedToSend))
  }

  /** `response.ok`: a 2xx status. */
  predicate StatusOk(status: int) {
    200 <= status <= 299
  }

  /** The fetch to /api/contact: an exception (network failure), or the status, text and parse of the reply. */
  datatype FetchOutcome = FetchThrows(message: string) | Responded(status: int, raw: string, parse: JsonParse)

  /** A submission attempt: the body posted (if any) and what the user sees. */
  datatype ClientRun = ClientRun(sent: Option<Payload>, outcome: UiOutcome)

  /** handleSubmit(onSubmit): the resolver, then the token, the POST and the reply. */
  function Submit(d: FormData, emailOk: string -> bool, siteKey: Option<string>, loaded: bool,
    execution: Execution, fetch: FetchOutcome): (run: ClientRun)
    ensures run.outcome.Blocked? <==> !FormValid(d, emailOk)
    ensures run.outcome == Succeeded <==>
              && FormValid(d, emailOk)
              && GetRecaptchaToken(siteKey, loaded, execution).Resolved?
              && fetch.Responded? && StatusOk(fetch.status)
    ensures var tok := GetRecaptchaToken(siteKey, loaded, execution);
            && (run.sent.Some? <==> FormValid(d, emailOk) && tok.Resolved?)
            && (run.sent.Some? ==> run.sent.value == RequestBody(d, tok.token))
            && (FormValid(d, emailOk) && tok.Rejected? ==> run.outcome == Alerted(Str(tok.message)))
            && (run.sent.Some? && fetch.FetchThrows? ==> run.outcome == Alerted(Str(fetch.message)))
            && (run.sent.Some? && fetch.Responded? ==>
                  run.outcome == Conclude(StatusOk(fetch.status), InterpretBody(fetch.raw, fetch.parse)))
  {
    if !FormValid(d, emailOk) then
      ClientRun(None, Blocked(Issues(ClientSchema, FormFields(d), emailOk)))
    else
      match GetRecaptchaToken(siteKey, loaded, execution)
      case Rejected(message) => ClientRun(None, Alerted(Str(message)))
      case Resolved(token) =>
        var body := RequestBody(d, token);
        match fetch
        case FetchThrows(message) => ClientRun(Some(body), Alerted(Str(message)))
        case Responded(status, raw, parse) =>
          ClientRun(Some(body), Conclude(StatusOk(status), InterpretBody(raw, parse)))
  }
}
