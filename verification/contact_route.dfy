/**
 * The POST /api/contact handler. It runs five steps in order, and each may end
 * the request with an HTTP status:
 *   1. rate limit (RateLimiter.Check),
 *   2. parse the JSON body and 3. validate it (ParseThenVerify),
 *   4. require the reCAPTCHA secret and verify the token (VerifyThenDeliver),
 *   5. send the notification email (Deliver).
 * The clock, the configuration and the outcomes of the remote calls are inputs.
 */
module ContactRoute {
  import opened Wrappers
  import opened Js
  import opened Zod
  import ClientKey
  import RateLimiter

  /** contactSchema, field by field in declaration order. */
  const ServerSchema: seq<FieldRule> := [
    FieldRule("name", MinLength(2, "Name is required")),
    FieldRule("email", EmailFormat("Invalid email address")),
    FieldRule("phone", MinLength(10, "Phone number is required")),
    FieldRule("eventType", MinLength(1, "Please select an event type")),
    FieldRule("date", OptionalString),
    FieldRule("message", MinLength(10, "Message must be at least 10 characters")),
    FieldRule("recaptchaToken", MinLength(1, "reCAPTCHA token is required"))
  ]

  /** The validated submission (`validationResult.data`). */
  datatype Submission = Submission(
    name: string,
    email: string,
    phone: string,
    eventType: string,
    date: Option<string>,
    message: string,
    recaptchaToken: string)

  /** The server schema's conditions, written out field by field. */
  predicate ServerFieldsValid(fields: map<string, Value>, emailOk: string -> bool) {
    && Get(fields, "name").Str? && |Get(fields, "name").s| >= 2
    && Get(fields, "email").Str? && emailOk(Get(fields, "email").s)
    && Get(fields, "phone").Str? && |Get(fields, "phone").s| >= 10
    && Get(fields, "eventType").Str? && |Get(fields, "eventType").s| >= 1
    && (Get(fields, "date").Undefined? || Get(fields, "date").Str?)
    && Get(fields, "message").Str? && |Get(fields, "message").s| >= 10
    && Get(fields, "recaptchaToken").Str? && |Get(fields, "recaptchaToken").s| >= 1
  }

  /** The table-driven schema accepts exactly the objects meeting the written-out conditions. */
  lemma ServerSchemaMeans(p: Payload, emailOk: string -> bool)
    ensures Accepts(ServerSchema, p, emailOk) <==> p.Object? && ServerFieldsValid(p.fields, emailOk)
  {
    if p.Object? {
      var f := p.fields;
      var s := ServerSchema;
      if AllSatisfied(s, f, emailOk) {
        assert Satisfies(s[0].rule, FieldValue(s, 0, f), emailOk);
        assert Satisfies(s[1].rule, FieldValue(s, 1, f), emailOk);
        assert Satisfies(s[2].rule, FieldValue(s, 2, f), emailOk);
        assert Satisfies(s[3].rule, FieldValue(s, 3, f), emailOk);
        assert Satisfies(s[4].rule, FieldValue(s, 4, f), emailOk);
        assert Satisfies(s[5].rule, FieldValue(s, 5, f), emailOk);
        assert Satisfies(s[6].rule, FieldValue(s, 6, f), emailOk);
      }
      if ServerFieldsValid(f, emailOk) {
        forall i | 0 <= i < |s| ensures Satisfies(s[i].rule, FieldValue(s, i, f), emailOk) {
          assert i == 0 || i == 1 || i == 2 || i == 3 || i == 4 || i == 5 || i == 6;
        }
      }
    }
  }

  /** Every field the route reads is one contactSchema lists, so stripping keeps it. */
  lemma ServerShapeNames()
    ensures "name" in ShapeFields(ServerSchema) && "email" in ShapeFields(ServerSchema)
    ensures "phone" in ShapeFields(ServerSchema) && "eventType" in ShapeFields(ServerSchema)
    ensures "date" in ShapeFields(ServerSchema) && "message" in ShapeFields(ServerSchema)
    ensures "recaptchaToken" in ShapeFields(ServerSchema)
  {
    assert ServerSchema[0].field == "name";
    assert ServerSchema[1].field == "email";
    assert ServerSchema[2].field == "phone";
    assert ServerSchema[3].field == "eventType";
    assert ServerSchema[4].field == "date";
    assert ServerSchema[5].field == "message";
    assert ServerSchema[6].field == "recaptchaToken";
  }

  /** The Submission read off validated data. */
  function ToSubmission(data: map<string, Value>, emailOk: string -> bool): (s: Submission)
    requires ServerFieldsValid(data, emailOk)
  {
    var date := Get(data, "date");
    Submission(
      Get(data, "name").s,
      Get(data, "email").s,
      Get(data, "phone").s,
      Get(data, "eventType").s,
      if date.Str? then Some(date.s) else None,
      Get(data, "message").s,
      Get(data, "recaptchaToken").s)
  }

  /** contactSchema.safeParse(body), with the accepted data as a Submission. */
  function Validate(p: Payload, emailOk: string -> bool): (r: Result<Submission, seq<Issue>>)
    ensures r.Ok? <==> p.Object? && ServerFieldsValid(p.fields, emailOk)
    ensures r.Err? ==> r.error != []
    ensures r.Ok? ==> && Get(p.fields, "name") == Str(r.value.name)
                      && Get(p.fields, "email") == Str(r.value.email)
                      && Get(p.fields, "phone") == Str(r.value.phone)
                      && Get(p.fields, "eventType") == Str(r.value.eventType)
                      && Get(p.fields, "message") == Str(r.value.message)
                      && Get(p.fields, "recaptchaToken") == Str(r.value.recaptchaToken)
                      && (r.value.date.None? <==> Get(p.fields, "date").Undefined?)
                      && (r.value.date.Some? ==> Get(p.fields, "date") == Str(r.value.date.value))
  {
    ServerSchemaMeans(p, emailOk);
    ServerShapeNames();
    match SafeParse(ServerSchema, p, emailOk)
    case Err(issues) => Err(issues)
    case Ok(data) =>
      assert data.Keys <= ShapeFields(ServerSchema);
      assert Get(data, "name") == Get(p.fields, "name");
      assert Get(data, "email") == Get(p.fields, "email");
      assert Get(data, "phone") == Get(p.fields, "phone");
      assert Get(data, "eventType") == Get(p.fields, "eventType");
      assert Get(data, "date") == Get(p.fields, "date");
      assert Get(data, "message") == Get(p.fields, "message");
      assert Get(data, "recaptchaToken") == Get(p.fields, "recaptchaToken");
      Ok(ToSubmission(data, emailOk))
  }

  // ---------------------------------------------------------------------------
  // The POST handler
  // ---------------------------------------------------------------------------

  /** Admission threshold on the reCAPTCHA score (inclusive). */
  const MinScore: real := 0.5

  /** Recipient used when YOUR_EMAIL is unset or empty. */
  const FallbackRecipient: string := "jeesonfranz@gmail.com"

  /** The fixed sender of every notification. */
  const Sender: string := "Jeeson Franz Website <onboarding@resend.dev>"

  /** The subject line before the submitter's name. */
  const SubjectPrefix: string := "New Booking Inquiry from "

  const TooManyRequests: string := "Too many requests. Please try again later."
  const InvalidFormData: string := "Invalid form data"
  const ConfigurationError: string := "Server configuration error"
  const VerificationFailed: string := "reCAPTCHA verification failed"
  const SendFailed: string := "Failed to send email. Please try again."
  const SomethingWentWrong: string := "Something went wrong. Please try again."

  /** What `await req.json()` produced: a JSON value, or an exception (malformed body). */
  datatype BodyRead = Parsed(payload: Payload) | ParseThrows

  /** The parts of the incoming request the handler reads. */
  datatype Request = Request(forwardedFor: Option<string>, body: BodyRead)

  /** RECAPTCHA_SECRET_KEY and YOUR_EMAIL from the environment. */
  datatype Config = Config(recaptchaSecret: Option<string>, yourEmail: Option<string>)

  /**
   * The siteverify exchange: an exception (network failure, non-JSON reply, `null`
   * reply), or the reply's `success` and `score` properties.
   */
  datatype VerifyReply = VerifyThrows | Verified(success: Value, score: Value)

  /** `resend.emails.send`: an exception, or `{data, error}` with `data?.id` and whether `error` is set. */
  datatype SendReply = SendThrows | Sent(id: Option<string>, errored: bool)

  /** The outcomes the two remote services would give if called. */
  datatype Services = Services(verify: VerifyReply, send: SendReply)

  /** The form parameters posted to siteverify. */
  datatype VerifyCall = VerifyCall(secret: string, response: string, remoteip: string)

  /** The structured fields of the notification email (the HTML markup is not modelled). */
  datatype Email = Email(
    from: string,
    to: string,
    subject: string,
    replyTo: string,
    name: string,
    email: string,
    phone: string,
    eventType: string,
    eventDate: Option<string>,
    message: string)

  /** A JSON response body: `{error, details?}` or `{success: true, messageId}`. */
  datatype ResponseBody =
    | ErrorBody(error: string, details: Option<seq<Issue>>)
    | SuccessBody(messageId: Option<string>)

  datatype Response = Response(status: int, body: ResponseBody)

  /**
   * Everything one request does: the response, the rate-limit map afterwards,
   * the verification call and the email send it made (if any), and the eviction
   * it scheduled (if any).
   */
  datatype Outcome = Outcome(
    response: Response,
    store: RateLimiter.Store,
    verifyCall: Option<VerifyCall>,
    emailCall: Option<Email>,
    evictAt: Option<int>)

  /** The score siteverify reported, or 0 when it is missing or not a number. */
  function Score(v: Value): real {
    if v.Num? then v.n else 0.0
  }

  /** The verification reply admits the submission. */
  predicate HumanEnough(success: Value, score: Value) {
    Truthy(success) && Score(score) >= MinScore
  }

  /** The recipient: YOUR_EMAIL when set and non-empty, the fallback otherwise. */
  function Recipient(yourEmail: Option<string>): string {
    if Configured(yourEmail) then yourEmail.value else FallbackRecipient
  }

  /** The email built from a validated submission. */
  function Compose(s: Submission, yourEmail: Option<string>): Email {
    Email(
      Sender,
      Recipient(yourEmail),
      SubjectPrefix + s.name,
      s.email,
      s.name, s.email, s.phone, s.eventType,
      if s.date.Some? && s.date.value != "" then s.date else None,
      s.message)
  }

  function Reply(status: int, error: string): Response {
    Response(status, ErrorBody(error, None))
  }

  /** What the steps after the rate-limit check produce: the response and the remote calls made. */
  datatype Effects = Effects(response: Response, verifyCall: Option<VerifyCall>, emailCall: Option<Email>)

  /** Step 5: send the email and map the transport's answer to a response. */
  function Deliver(email: Email, send: SendReply): (e: Effects)
    ensures e.emailCall == Some(email) && e.verifyCall.None?
    ensures e.response.status == 200 <==> send.Sent? && !send.errored
    ensures e.response.status == 200 ==> e.response.body == SuccessBody(send.id)
    ensures send.Sent? && send.errored ==> e.response == Reply(500, SendFailed)
    ensures e.response.status != 200 ==> e.response.status == 500
    ensures e.response.body.ErrorBody? <==> e.response.status != 200
    ensures e.response.body.ErrorBody? ==> e.response.body.error != ""
  {
    match send
    case SendThrows => Effects(Reply(500, SomethingWentWrong), None, Some(email))
    case Sent(id, errored) =>
      if errored then Effects(Reply(500, SendFailed), None, Some(email))
      else Effects(Response(200, SuccessBody(id)), None, Some(email))
  }

  /** Step 4: require the secret, ask siteverify, then deliver when the reply admits the submission. */
  function VerifyThenDeliver(key: string, data: Submission, config: Config, services: Services): (e: Effects)
    ensures e.verifyCall.Some? <==> Configured(config.recaptchaSecret)
    ensures e.verifyCall.Some? ==>
              e.verifyCall.value == VerifyCall(config.recaptchaSecret.value, data.recaptchaToken, key)
    ensures e.emailCall.Some? <==>
              && Configured(config.recaptchaSecret) && services.verify.Verified?
              && HumanEnough(services.verify.success, services.verify.score)
    ensures e.emailCall.Some? ==> e.emailCall.value == Compose(data, config.yourEmail)
    ensures e.response.status == 200 <==> e.emailCall.Some? && services.send.Sent? && !services.send.errored
    ensures e.response.status == 200 ==> e.response.body == SuccessBody(services.send.id)
    ensures e.emailCall.Some? && services.send.Sent? && services.send.errored ==>
              e.response == Reply(500, SendFailed)
    ensures e.response.status in {200, 400, 500}
    ensures e.response.body.ErrorBody? <==> e.response.status != 200
    ensures e.response.body.ErrorBody? ==> e.response.body.error != ""
  {
    if !Configured(config.recaptchaSecret) then
      Effects(Reply(500, ConfigurationError), None, None)
    else
      var call := Some(VerifyCall(config.recaptchaSecret.value, data.recaptchaToken, key));
      match services.verify
      case VerifyThrows => Effects(Reply(500, SomethingWentWrong), call, None)
      case Verified(success, score) =>
        if !HumanEnough(success, score) then Effects(Reply(400, VerificationFailed), call, None)
        else Deliver(Compose(data, config.yourEmail), services.send).(verifyCall := call)
  }

  /** Steps 2-3 for an admitted request: parse the body and validate it. */
  function ParseThenVerify(key: string, body: BodyRead, config: Config, services: Services,
    emailOk: string -> bool): (e: Effects)
    ensures e.verifyCall.Some? ==> body.Parsed? && Validate(body.payload, emailOk).Ok?
    ensures e.emailCall.Some? ==> body.Parsed? && Validate(body.payload, emailOk).Ok?
    ensures e.response.status == 200 ==> e.emailCall.Some?
    ensures e.response.status in {200, 400, 500}
    ensures e.response.body.ErrorBody? <==> e.response.status != 200
    ensures e.response.body.ErrorBody? ==> e.response.body.error != ""
  {
    match body
    case ParseThrows => Effects(Reply(500, SomethingWentWrong), None, None)
    case Parsed(payload) =>
      match Validate(payload, emailOk)
      case Err(issues) => Effects(Response(400, ErrorBody(InvalidFormData, Some(issues))), None, None)
      case Ok(data) => VerifyThenDeliver(key, data, config, services)
  }

  /** POST(req) with the map, the clock, the configuration and the remote outcomes as inputs. */
  function HandlePost(
    store: RateLimiter.Store, now: int, req: Request, config: Config, services: Services,
    emailOk: string -> bool): (o: Outcome)
    ensures o.store == RateLimiter.Check(store, ClientKey.RateLimitKey(req.forwardedFor), now).store
    ensures o.response.status == 429 <==> !RateLimiter.Check(store, ClientKey.RateLimitKey(req.forwardedFor), now).allowed
    ensures o.response.status in {200, 400, 429, 500}
    ensures o.response.body.ErrorBody? <==> o.response.status != 200
    ensures o.response.body.ErrorBody? ==> o.response.body.error != ""
  {
    var key := ClientKey.RateLimitKey(req.forwardedFor);
    var verdict := RateLimiter.Check(store, key, now);
    if !verdict.allowed then
      Outcome(Reply(429, TooManyRequests), verdict.store, None, None, verdict.evictAt)
    else
      var e := ParseThenVerify(key, req.body, config, services, emailOk);
      Outcome(e.response, verdict.store, e.verifyCall, e.emailCall, verdict.evictAt)
  }
}

/** Properties of the POST handler, stated over all inputs. */
module ContactRouteFacts {
  import opened Wrappers
  import opened Js
  import opened Zod
  import opened ContactRoute
  import ClientKey
  import RateLimiter

  /** The limiter's verdict for a request. */
  function Admission(store: RateLimiter.Store, now: int, req: Request): RateLimiter.Verdict {
    RateLimiter.Check(store, ClientKey.RateLimitKey(req.forwardedFor), now)
  }

  /**
   * A rate-limited request gets 429, leaves the map as it was, calls nothing,
   * and its body, the configuration and the services make no difference.
   */
  lemma RateLimitedBeforeParsing(
    store: RateLimiter.Store, now: int, header: Option<string>, body: BodyRead, body': BodyRead,
    config: Config, config': Config, services: Services, services': Services, emailOk: string -> bool)
    requires !Admission(store, now, Request(header, body)).allowed
    ensures var o := HandlePost(store, now, Request(header, body), config, services, emailOk);
            && o.response == Response(429, ErrorBody(TooManyRequests, None))
            && o.store == store
            && o.verifyCall.None? && o.emailCall.None?
            && o == HandlePost(store, now, Request(header, body'), config', services', emailOk)
  {
  }

  /**
   * An admitted request whose body fails the schema gets 400 with the issues,
   * calls nothing, and has still used up its slot.
   */
  lemma InvalidSubmissionKeepsSlot(
    store: RateLimiter.Store, now: int, header: Option<string>, p: Payload,
    config: Config, services: Services, emailOk: string -> bool)
    requires Admission(store, now, Request(header, Parsed(p))).allowed
    requires !(p.Object? && ServerFieldsValid(p.fields, emailOk))
    ensures var o := HandlePost(store, now, Request(header, Parsed(p)), config, services, emailOk);
            var key := ClientKey.RateLimitKey(header);
            && o.response.status == 400
            && o.response.body.ErrorBody? && o.response.body.error == InvalidFormData
            && o.response.body.details.Some? && o.response.body.details.value != []
            && o.verifyCall.None? && o.emailCall.None?
            && (key !in store || o.store[key] != store[key])
  {
    RateLimiter.AdmissionConsumesSlot(store, ClientKey.RateLimitKey(header), now);
  }

  /** Without RECAPTCHA_SECRET_KEY a valid submission gets 500 before any verification call. */
  lemma MissingSecretStopsBeforeVerification(
    store: RateLimiter.Store, now: int, req: Request, config: Config, services: Services,
    emailOk: string -> bool)
    requires Admission(store, now, req).allowed
    requires req.body.Parsed? && req.body.payload.Object?
    requires ServerFieldsValid(req.body.payload.fields, emailOk)
    requires !Configured(config.recaptchaSecret)
    ensures var o := HandlePost(store, now, req, config, services, emailOk);
            && o.response == Response(500, ErrorBody(ConfigurationError, None))
            && o.verifyCall.None? && o.emailCall.None?
  {
  }

  /**
   * The email is sent exactly when the request is admitted, parses, validates,
   * the secret is configured, siteverify answers, and the answer has a truthy
   * `success` and a numeric `score` of at least 0.5.
   */
  lemma EmailSentExactlyWhenVerified(
    store: RateLimiter.Store, now: int, req: Request, config: Config, services: Services,
    emailOk: string -> bool)
    ensures HandlePost(store, now, req, config, services, emailOk).emailCall.Some? <==>
              && Admission(store, now, req).allowed
              && req.body.Parsed? && Validate(req.body.payload, emailOk).Ok?
              && Configured(config.recaptchaSecret)
              && services.verify.Verified?
              && Truthy(services.verify.success)
              && services.verify.score.Num? && services.verify.score.n >= 0.5
  {
  }

  /** 200 is answered exactly when the email was sent without error, and carries the message id. */
  lemma SuccessExactlyWhenDelivered(
    store: RateLimiter.Store, now: int, req: Request, config: Config, services: Services,
    emailOk: string -> bool)
    ensures var o := HandlePost(store, now, req, config, services, emailOk);
            && (o.response.status == 200 <==>
                  o.emailCall.Some? && services.send.Sent? && !services.send.errored)
            && (o.response.status == 200 ==> o.response.body == SuccessBody(services.send.id))
            && (o.emailCall.Some? && services.send.Sent? && services.send.errored ==>
                  o.response == Response(500, ErrorBody(SendFailed, None)))
  {
  }

  /** A falsy `success`, or a score that is missing, non-numeric or below 0.5, gets 400. */
  lemma FailedVerificationIs400(
    store: RateLimiter.Store, now: int, req: Request, config: Config, services: Services,
    emailOk: string -> bool)
    requires Admission(store, now, req).allowed
    requires req.body.Parsed? && req.body.payload.Object?
    requires ServerFieldsValid(req.body.payload.fields, emailOk)
    requires Configured(config.recaptchaSecret)
    requires services.verify.Verified?
    requires !Truthy(services.verify.success) || !services.verify.score.Num? || services.verify.score.n < 0.5
    ensures var o := HandlePost(store, now, req, config, services, emailOk);
            && o.response == Response(400, ErrorBody(VerificationFailed, None))
            && o.verifyCall.Some? && o.emailCall.None?
  {
  }

  /** Exceptions from parsing, verification or sending all end in the generic 500. */
  lemma ThrownExceptionsAre500(
    store: RateLimiter.Store, now: int, req: Request, config: Config, services: Services,
    emailOk: string -> bool)
    requires Admission(store, now, req).allowed
    requires || req.body.ParseThrows?
             || (Validate(req.body.payload, emailOk).Ok? && Configured(config.recaptchaSecret)
                 && (|| services.verify.VerifyThrows?
                     || (HumanEnough(services.verify.success, services.verify.score) && services.send.SendThrows?)))
    ensures HandlePost(store, now, req, config, services, emailOk).response ==
              Response(500, ErrorBody(SomethingWentWrong, None))
  {
  }

  /** The siteverify call carries the secret, the submitted token and the rate-limit key as remote IP. */
  lemma VerificationCallFields(
    store: RateLimiter.Store, now: int, req: Request, config: Config, services: Services,
    emailOk: string -> bool)
    ensures var o := HandlePost(store, now, req, config, services, emailOk);
            o.verifyCall.Some? ==>
              && req.body.Parsed?
              && config.recaptchaSecret == Some(o.verifyCall.value.secret)
              && Get(req.body.payload.fields, "recaptchaToken") == Str(o.verifyCall.value.response)
              && o.verifyCall.value.remoteip == ClientKey.RateLimitKey(req.forwardedFor)
  {
  }

  /**
   * The email goes to YOUR_EMAIL (or the fallback address), is titled with the
   * submitter's name, replies to the submitter, repeats the submitted fields,
   * and has an event date exactly when the submitted `date` is a non-empty string.
   */
  lemma EmailFields(
    store: RateLimiter.Store, now: int, req: Request, config: Config, services: Services,
    emailOk: string -> bool)
    ensures var o := HandlePost(store, now, req, config, services, emailOk);
            o.emailCall.Some? ==>
              var m := o.emailCall.value;
              var f := req.body.payload.fields;
              && req.body.Parsed?
              && m.from == "Jeeson Franz Website <onboarding@resend.dev>"
              && m.to == (if config.yourEmail.Some? && config.yourEmail.value != ""
                          then config.yourEmail.value else "jeesonfranz@gmail.com")
              && Get(f, "name") == Str(m.name)
              && m.subject == "New Booking Inquiry from " + m.name
              && Get(f, "email") == Str(m.email) && m.replyTo == m.email
              && Get(f, "phone") == Str(m.phone)
              && Get(f, "eventType") == Str(m.eventType)
              && Get(f, "message") == Str(m.message)
              && (m.eventDate.Some? <==> Truthy(Get(f, "date")))
              && (m.eventDate.Some? ==> Get(f, "date") == Str(m.eventDate.value))
  {
    var o := HandlePost(store, now, req, config, services, emailOk);
    if o.emailCall.Some? {
      var key := ClientKey.RateLimitKey(req.forwardedFor);
      var e := ParseThenVerify(key, req.body, config, services, emailOk);
      assert o.emailCall == e.emailCall;
      var r := Validate(req.body.payload, emailOk);
      assert e == VerifyThenDeliver(key, r.value, config, services);
      ComposedFields(req.body.payload, r, config.yourEmail);
    }
  }

  /** The fields of the email composed from a body that validated. */
  lemma ComposedFields(p: Payload, r: Result<Submission, seq<Issue>>, yourEmail: Option<string>)
    requires p.Object? && r.Ok?
    requires && Get(p.fields, "name") == Str(r.value.name)
             && Get(p.fields, "email") == Str(r.value.email)
             && Get(p.fields, "phone") == Str(r.value.phone)
             && Get(p.fields, "eventType") == Str(r.value.eventType)
             && Get(p.fields, "message") == Str(r.value.message)
             && (r.value.date.None? <==> Get(p.fields, "date").Undefined?)
             && (r.value.date.Some? ==> Get(p.fields, "date") == Str(r.value.date.value))
    ensures var m := Compose(r.value, yourEmail);
            var f := p.fields;
            && m.from == "Jeeson Franz Website <onboarding@resend.dev>"
            && m.to == (if yourEmail.Some? && yourEmail.value != "" then yourEmail.value else "jeesonfranz@gmail.com")
            && Get(f, "name") == Str(m.name)
            && m.subject == "New Booking Inquiry from " + m.name
            && Get(f, "email") == Str(m.email) && m.replyTo == m.email
            && Get(f, "phone") == Str(m.phone)
            && Get(f, "eventType") == Str(m.eventType)
            && Get(f, "message") == Str(m.message)
            && (m.eventDate.Some? <==> Truthy(Get(f, "date")))
            && (m.eventDate.Some? ==> Get(f, "date") == Str(m.eventDate.value))
  {
  }

  /** A score of exactly 0.5 passes; a missing or non-numeric score counts as 0 and fails. */
  lemma ScoreThreshold(success: Value, score: Value)
    requires Truthy(success)
    ensures HumanEnough(success, Num(0.5))
    ensures !score.Num? ==> !HumanEnough(success, score)
  {
  }

  /**
   * An admitted request whose body has no `recaptchaToken` property (or is not
   * an object at all) is rejected by the schema with 400, whatever the rest of
   * the body and the verification configuration.
   */
  lemma SubmissionWithoutTokenIs400(
    store: RateLimiter.Store, now: int, header: Option<string>, p: Payload, config: Config,
    services: Services, emailOk: string -> bool)
    requires RateLimiter.Check(store, ClientKey.RateLimitKey(header), now).allowed
    requires p.Object? ==> "recaptchaToken" !in p.fields
    ensures HandlePost(store, now, Request(header, Parsed(p)), config, services, emailOk).response.status == 400
  {
  }

  // ---------------------------------------------------------------------------
  // A sequence of requests sharing the process-wide map
  // ---------------------------------------------------------------------------

  /** One request arriving at time `now`, with the outcomes its remote calls would have. */
  datatype Arrival = Arrival(now: int, request: Request, services: Services)

  /** The responses to requests handled one after another, and the final map. */
  function Serve(store: RateLimiter.Store, arrivals: seq<Arrival>, config: Config, emailOk: string -> bool)
    : (r: (seq<Response>, RateLimiter.Store))
    ensures |r.0| == |arrivals|
    decreases |arrivals|
  {
    if arrivals == [] then ([], store)
    else
      var a := arrivals[0];
      var o := HandlePost(store, a.now, a.request, config, a.services, emailOk);
      var rest := Serve(o.store, arrivals[1..], config, emailOk);
      ([o.response] + rest.0, rest.1)
  }

  /** The arrival times. */
  function Times(arrivals: seq<Arrival>): (times: seq<int>)
    ensures |times| == |arrivals|
    ensures forall i :: 0 <= i < |arrivals| ==> times[i] == arrivals[i].now
    decreases |arrivals|
  {
    if arrivals == [] then [] else [arrivals[0].now] + Times(arrivals[1..])
  }

  /** Every arrival carries the same `x-forwarded-for` header. */
  predicate SameClient(arrivals: seq<Arrival>, header: Option<string>) {
    forall i :: 0 <= i < |arrivals| ==> arrivals[i].request.forwardedFor == header
  }

  /**
   * For one client, the handler answers 429 exactly where the rate limiter
   * alone refuses, whatever the bodies and remote outcomes, and leaves the
   * same map behind.
   */
  lemma {:induction false} ServeFollowsLimiter(
    store: RateLimiter.Store, arrivals: seq<Arrival>, header: Option<string>, config: Config,
    emailOk: string -> bool)
    requires SameClient(arrivals, header)
    ensures var served := Serve(store, arrivals, config, emailOk);
            var replay := RateLimiter.Replay(store, ClientKey.RateLimitKey(header), Times(arrivals));
            && served.1 == replay.1
            && forall i :: 0 <= i < |arrivals| ==> (served.0[i].status == 429 <==> !replay.0[i])
    decreases |arrivals|
  {
    if arrivals != [] {
      var key := ClientKey.RateLimitKey(header);
      var a := arrivals[0];
      var o := HandlePost(store, a.now, a.request, config, a.services, emailOk);
      var v := RateLimiter.Check(store, key, a.now);
      assert a.request.forwardedFor == header;
      assert SameClient(arrivals[1..], header);
      ServeFollowsLimiter(o.store, arrivals[1..], header, config, emailOk);
      assert Times(arrivals)[0] == a.now && Times(arrivals)[1..] == Times(arrivals[1..]);
      var rest := Serve(o.store, arrivals[1..], config, emailOk);
      var restReplay := RateLimiter.Replay(v.store, key, Times(arrivals[1..]));
      ConsAgree(o.response, rest.0, v.allowed, restReplay.0);
    }
  }

  /** Prepending a matching head keeps "429 exactly where refused" true of two sequences. */
  lemma ConsAgree(head: Response, tail: seq<Response>, allowed: bool, decisions: seq<bool>)
    requires |tail| == |decisions|
    requires head.status == 429 <==> !allowed
    requires forall j :: 0 <= j < |tail| ==> (tail[j].status == 429 <==> !decisions[j])
    ensures forall i :: 0 <= i < |tail| + 1 ==>
              (([head] + tail)[i].status == 429 <==> !([allowed] + decisions)[i])
  {
    forall i | 0 <= i < |tail| + 1
      ensures (([head] + tail)[i].status == 429 <==> !([allowed] + decisions)[i])
    {
      if i > 0 {
        assert ([head] + tail)[i] == tail[i - 1];
        assert ([allowed] + decisions)[i] == decisions[i - 1];
      }
    }
  }

  /**
   * From a fresh process, submissions from one client all strictly before the end
   * of the hour opened by
   * the first: the first five are not rate-limited and every later one gets 429,
   * whatever it contains.
   */
  lemma FirstHourAdmitsFiveSubmissions(arrivals: seq<Arrival>, header: Option<string>, config: Config,
    emailOk: string -> bool)
    requires arrivals != [] && SameClient(arrivals, header)
    requires forall i :: 0 <= i < |arrivals| ==> arrivals[i].now < arrivals[0].now + RateLimiter.WindowMs
    ensures forall i :: 0 <= i < |arrivals| ==>
              (Serve(map[], arrivals, config, emailOk).0[i].status == 429 <==> i >= 5)
  {
    var times := Times(arrivals);
    ServeFollowsLimiter(map[], arrivals, header, config, emailOk);
    RateLimiter.FirstWindowAdmitsFive(ClientKey.RateLimitKey(header), times);
  }
}
