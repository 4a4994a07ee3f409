/**
 * The contact page and the contact endpoint together: what the page sends meets
 * the endpoint's schema exactly when a non-empty token is attached, and the
 * endpoint's replies reach the user as the banner or as its error text.
 */
module ContactFlow {
  import opened Wrappers
  import opened Js
  import opened Zod
  import ContactRoute
  import ContactPage
  import RateLimiter
  import ClientKey

  /** The fields of a posted body are the form's fields plus the token. */
  lemma RequestBodyFields(d: ContactPage.FormData, token: Option<string>)
    ensures var f := ContactPage.RequestBody(d, token).fields;
            && Get(f, "name") == Str(d.name) && Get(f, "email") == Str(d.email)
            && Get(f, "phone") == Str(d.phone) && Get(f, "eventType") == Str(d.eventType)
            && Get(f, "message") == Str(d.message)
            && Get(f, "date") == (if d.date.Some? then Str(d.date.value) else Undefined)
            && Get(f, "recaptchaToken") == (if token.Some? then Str(token.value) else Null)
  {
  }

  /**
   * A body the page builds with a string token meets contactSchema exactly when
   * the form meets formSchema and the token is non-empty; the accepted
   * submission carries the form's values.
   */
  lemma ServerAcceptsExactlyValidForms(d: ContactPage.FormData, token: string, emailOk: string -> bool)
    ensures var r := ContactRoute.Validate(ContactPage.RequestBody(d, Some(token)), emailOk);
            && (r.Ok? <==> ContactPage.FormValid(d, emailOk) && token != "")
            && (r.Ok? ==> r.value == ContactRoute.Submission(
                            d.name, d.email, d.phone, d.eventType, d.date, d.message, token))
  {
    ContactPage.FormValidMeans(d, emailOk);
    RequestBodyFields(d, Some(token));
  }

  /** A body sent with the `null` token (no site key) always fails contactSchema on `recaptchaToken`. */
  lemma NullTokenFailsServerSchema(d: ContactPage.FormData, emailOk: string -> bool)
    ensures var r := ContactRoute.Validate(ContactPage.RequestBody(d, None), emailOk);
            r.Err? && WrongType("recaptchaToken") in r.error
  {
    var p := ContactPage.RequestBody(d, None);
    RequestBodyFields(d, None);
    var s := ContactRoute.ServerSchema;
    assert FieldValue(s, 6, p.fields) == Null;
    assert !Satisfies(s[6].rule, FieldValue(s, 6, p.fields), emailOk);
    assert CheckField(s[6], FieldValue(s, 6, p.fields), emailOk) == Some(WrongType("recaptchaToken"));
  }

  /**
   * Whatever the page sends meets contactSchema exactly when getRecaptchaToken
   * produced a non-empty token.
   */
  lemma SentBodyMeetsServerSchema(d: ContactPage.FormData, emailOk: string -> bool, siteKey: Option<string>,
    loaded: bool, execution: ContactPage.Execution, fetch: ContactPage.FetchOutcome)
    ensures var run := ContactPage.Submit(d, emailOk, siteKey, loaded, execution, fetch);
            run.sent.Some? ==>
              (ContactRoute.Validate(run.sent.value, emailOk).Ok? <==>
                 Configured(siteKey) && loaded && execution.Executed? && execution.token != "")
  {
    var run := ContactPage.Submit(d, emailOk, siteKey, loaded, execution, fetch);
    if run.sent.Some? {
      var tok := ContactPage.GetRecaptchaToken(siteKey, loaded, execution);
      assert tok.Resolved?;
      assert run.sent.value == ContactPage.RequestBody(d, tok.token);
      if tok.token.Some? {
        ServerAcceptsExactlyValidForms(d, tok.token.value, emailOk);
      } else {
        NullTokenFailsServerSchema(d, emailOk);
      }
    }
  }

  /** How the page's JSON.parse reads a body the endpoint sent. */
  function AsParsed(body: ContactRoute.ResponseBody): ContactPage.JsonParse {
    match body
    case ErrorBody(error, _) => ContactPage.ParsedObject(Str(error))
    case SuccessBody(_) => ContactPage.ParsedObject(Undefined)
  }

  /**
   * Every reply of the endpoint reaches the user as the success banner when it
   * is 200 and otherwise as an alert with the endpoint's own error text.
   */
  lemma RepliesReachUser(
    store: RateLimiter.Store, now: int, req: ContactRoute.Request, config: ContactRoute.Config,
    services: ContactRoute.Services, emailOk: string -> bool, raw: string)
    requires raw != ""
    ensures var o := ContactRoute.HandlePost(store, now, req, config, services, emailOk);
            var u := ContactPage.Conclude(ContactPage.StatusOk(o.response.status),
                                          ContactPage.InterpretBody(raw, AsParsed(o.response.body)));
            && (u == ContactPage.Succeeded <==> o.response.status == 200)
            && (o.response.status != 200 ==> u == ContactPage.Alerted(Str(o.response.body.error)))
  {
  }

  /**
   * Without a site key, a valid form that passes the rate limiter ends, once the
   * endpoint's reply is read, in the alert "Invalid form data".
   */
  lemma NoSiteKeyEndsInInvalidFormAlert(
    d: ContactPage.FormData, emailOk: string -> bool, siteKey: Option<string>, loaded: bool,
    execution: ContactPage.Execution, store: RateLimiter.Store, now: int, header: Option<string>,
    config: ContactRoute.Config, services: ContactRoute.Services, raw: string)
    requires !Configured(siteKey) && ContactPage.FormValid(d, emailOk) && raw != ""
    requires RateLimiter.Check(store, ClientKey.RateLimitKey(header), now).allowed
    ensures var sent := ContactPage.RequestBody(d, None);
            var o := ContactRoute.HandlePost(store, now, ContactRoute.Request(header, ContactRoute.Parsed(sent)),
                                             config, services, emailOk);
            var fetch := ContactPage.Responded(o.response.status, raw, AsParsed(o.response.body));
            && o.response.status == 400
            && ContactPage.Submit(d, emailOk, siteKey, loaded, execution, fetch) ==
                 ContactPage.ClientRun(Some(sent), ContactPage.Alerted(Str(ContactRoute.InvalidFormData)))
  {
    var sent := ContactPage.RequestBody(d, None);
    NullTokenRequestIs400(d, emailOk, store, now, header, config, services);
    var o := ContactRoute.HandlePost(store, now, ContactRoute.Request(header, ContactRoute.Parsed(sent)),
                                     config, services, emailOk);
    NoSiteKeyShowsReply(d, emailOk, siteKey, loaded, execution, o.response.status, raw, ContactRoute.InvalidFormData);
  }

  /** At the endpoint, an admitted body with the `null` token is answered 400 "Invalid form data". */
  lemma NullTokenRequestIs400(
    d: ContactPage.FormData, emailOk: string -> bool, store: RateLimiter.Store, now: int,
    header: Option<string>, config: ContactRoute.Config, services: ContactRoute.Services)
    requires RateLimiter.Check(store, ClientKey.RateLimitKey(header), now).allowed
    ensures var o := ContactRoute.HandlePost(store, now,
                       ContactRoute.Request(header, ContactRoute.Parsed(ContactPage.RequestBody(d, None))),
                       config, services, emailOk);
            o.response.status == 400 && o.response.body.ErrorBody? &&
            o.response.body.error == ContactRoute.InvalidFormData
  {
    NullTokenFailsServerSchema(d, emailOk);
  }

  /** Without a site key, a valid form is posted with the `null` token and a non-2xx reply's error is alerted. */
  lemma NoSiteKeyShowsReply(
    d: ContactPage.FormData, emailOk: string -> bool, siteKey: Option<string>, loaded: bool,
    execution: ContactPage.Execution, status: int, raw: string, error: string)
    requires !Configured(siteKey) && ContactPage.FormValid(d, emailOk) && raw != "" && error != ""
    requires !ContactPage.StatusOk(status)
    ensures ContactPage.Submit(d, emailOk, siteKey, loaded, execution,
                               ContactPage.Responded(status, raw, ContactPage.ParsedObject(Str(error)))) ==
              ContactPage.ClientRun(Some(ContactPage.RequestBody(d, None)), ContactPage.Alerted(Str(error)))
  {
  }
}
