# Contact-form intake: a Dafny model

This project models the one part of the performer's website with behaviour:
the contact form. It covers the `POST /api/contact` endpoint and the client-side
form that calls it. Everything is written as pure functions. The clock, the
environment configuration and the outcomes of the remote calls are inputs:
reading the request body, reCAPTCHA `siteverify`, Resend's `emails.send`,
`grecaptcha.execute` and the page's `fetch`.

Modules, one per concern:

- `Wrappers` (`wrappers.dfy`): `Option` and `Result`.
- `Js` (`js.dfy`): the JavaScript values the code inspects. It defines their
  truthiness and property lookup, where a missing property is `undefined`.
- `Zod` (`zod.dfy`): the slice of `z.object({...}).safeParse` the form uses.
  Each field has one string rule: a minimum length, the email format, or
  optional. There is one issue per failing field, and unknown keys are stripped.
  Email validity is a parameter `emailOk: string -> bool`, and client and
  server share it.
- `ClientKey` (`client_key.dfy`): `getRateLimitKey`. The key is the text before
  the first comma of `x-forwarded-for`, untrimmed. It is `"unknown"` when the
  header is absent or empty. A header beginning with a comma gives the empty key.
- `RateLimiter` (`rate_limiter.dfy`): `checkRateLimit`, with the process-wide
  map made explicit. The window is 3 600 000 ms and the limit is 5 requests.
  The `setTimeout` deletion is shown two ways: the call that schedules it
  reports the time it was set for, and `Evict` is an explicit deletion step.
- `ContactRoute` (`contact_route.dfy`): `contactSchema` and the POST pipeline:
  rate limit, parse, validate, secret present, verification, send. There is
  one function per stage, and `HandlePost` composes them. The result records
  the response, the new map, and the verification call and the email send
  made, if any. `ContactRouteFacts` holds the all-inputs lemmas. It also holds
  `Serve`, which runs requests one after another over a shared map.
- `ContactPage` (`contact_page.dfy`): `formSchema`, `getRecaptchaToken`, the
  JSON body posted, and how `onSubmit` turns the reply into a banner or an alert.
- `ContactFlow` (`contact_flow.dfy`): facts about the page and the endpoint
  together.

Facts about the code that shape the model:

- The reCAPTCHA secret is mandatory (src/app/api/contact/route.ts:74-81).
  Without it, a valid submission gets 500 "Server configuration error", and
  verification is never skipped.
- `recaptchaToken` is a required non-empty string of the schema
  (src/app/api/contact/route.ts:12). A submission without it gets 400. So does
  the body the page sends with a `null` token when no site key is configured.
- A failing `siteverify` call (network error, or a reply that is not JSON)
  ends in the generic 500 of the outer `catch`
  (src/app/api/contact/route.ts:151-157).
- No check is made on the Resend credential before sending. A send failure is
  whatever `emails.send` reports.

The client's `raw || "Unexpected server response"` fallback is dead code.
The body is parsed only when `raw` is non-empty, so a parse failure always
keeps `raw` as the error text. `UnexpectedResponseNeverChosen` proves this.

## Model

| member | source | states |
|---|---|---|
| `ClientKey.FirstSegment` | src/app/api/contact/route.ts:21 | The result is a prefix of the header without a comma, ending at the header's end or just before its first comma. |
| `ClientKey.FirstSegmentUnique` | src/app/api/contact/route.ts:21 | Any prefix that stops at the first comma or at the end is exactly the computed first segment, so the key is uniquely determined. |
| `ClientKey.RateLimitKey` | src/app/api/contact/route.ts:19-23 | An absent or empty header gives "unknown". Otherwise the key is the header's first comma-separated segment, not trimmed. |
| `ClientKey.SingleEntryIsKey` | src/app/api/contact/route.ts:21 | A non-empty header with no comma is used verbatim as the key. |
| `ClientKey.LaterEntriesIgnored` | src/app/api/contact/route.ts:21 | For `first,rest` with a comma-free `first`, the key is `first`, whatever `rest` is. In particular a header starting with a comma gives the empty key. |
| `RateLimiter.Check` | src/app/api/contact/route.ts:25-49 | Only the given key's entry can change, and afterwards the key has an entry. A request is admitted iff there is no record, or `now > resetAt` strictly, or `count < 5`. A refusal leaves the map exactly as it was. A new or expired window resets the entry to count 1 with `resetAt = now + 3600000`. Inside the window the count rises by one and `resetAt` is kept. A deletion is scheduled only when no record existed, never on a reset. |
| `RateLimiter.Evict` | src/app/api/contact/route.ts:34 | The timer callback removes the key and leaves every other entry unchanged. |
| `RateLimiter.CheckPreservesWellFormed` | src/app/api/contact/route.ts:30-48 | If every count lies in 1..5 before a check, it still does afterwards. |
| `RateLimiter.AdmissionConsumesSlot` | src/app/api/contact/route.ts:32-48 | An admitted request always changes its key's entry: it either creates one, resets it, or increments it. |
| `RateLimiter.EvictedKeyStartsAfresh` | src/app/api/contact/route.ts:32-35 | After an eviction, the next request for the key is admitted with count 1 and a new window. |
| `RateLimiter.ExpiredWindowReadmits` | src/app/api/contact/route.ts:38-41 | Once `now` is strictly past `resetAt`, the key is admitted again with count 1, and no new deletion is scheduled. |
| `RateLimiter.BoundaryInstantStillLimited` | src/app/api/contact/route.ts:38-45 | At `now == resetAt` a full record still refuses the request. |
| `RateLimiter.BurstWithinWindow` | src/app/api/contact/route.ts:43-48 | While every request comes strictly before the record's `resetAt`, a key holding `c` admissions gets exactly `5 - c` more admissions in a row, and then only refusals. |
| `RateLimiter.FirstWindowAdmitsFive` | src/app/api/contact/route.ts:25-49 | From an empty map, requests for one key all strictly before the first window's end (the first request's time + 3600000): exactly the first five are admitted. |
| `RateLimiter.SixthRequestInWindowRefused` | src/app/api/contact/route.ts:25-49 | Six requests for one key, all strictly before the end of the window the first opens, are decided as allowed five times, then refused. |
| `Zod.CheckField` | src/app/api/contact/route.ts:5-13 | A field yields no issue iff its rule accepts it. A non-string yields a wrong-type issue naming the field. A string that fails yields the rule's own message. |
| `Zod.Issues` | src/app/api/contact/route.ts:63 | The issue list is empty iff every field passes. Each failing field's issue is in the list, and every listed issue comes from some field. |
| `Zod.SafeParse` | src/app/api/contact/route.ts:63-70 | Success iff the body is an object whose every shaped field passes. Success data keeps only the shape's fields, with the body's values. A failure carries a non-empty issue list, just "not an object" for non-objects. |
| `ContactRoute.ServerSchemaMeans` | src/app/api/contact/route.ts:5-13 | The schema table accepts exactly the bodies where name ≥ 2, email valid, phone ≥ 10, eventType ≥ 1, date absent or a string, message ≥ 10, and recaptchaToken a string of length ≥ 1. |
| `ContactRoute.ServerShapeNames` | src/app/api/contact/route.ts:5-13 | All seven fields the handler reads are listed in the schema, so stripping unknown keys keeps them. |
| `ContactRoute.Validate` | src/app/api/contact/route.ts:63-72 | Validation succeeds iff the written-out schema conditions hold. The submission repeats the body's strings, and `date` is absent exactly when the property was. |
| `ContactRoute.Deliver` | src/app/api/contact/route.ts:131-150 | The email is always handed to the transport. The answer is 200 with `messageId = data?.id` iff the transport returns without an error. An error gives 500 "Failed to send email", and an exception gives 500. |
| `ContactRoute.VerifyThenDeliver` | src/app/api/contact/route.ts:74-150 | siteverify is called iff the secret is set and non-empty, with the secret, the token and the client key. The email is sent iff the reply has a truthy `success` and a score of at least 0.5. Success is 200 iff the send succeeded. |
| `ContactRoute.ParseThenVerify` | src/app/api/contact/route.ts:62-72 | No remote call happens unless the body parsed and validated. A 200 implies an email was sent. |
| `ContactRoute.HandlePost` | src/app/api/contact/route.ts:51-158 | The new map is exactly the limiter's map for the request's key. The status is 429 iff the limiter refuses. Statuses are 200/400/429/500, and every non-200 has a non-empty error text. |
| `ContactRouteFacts.RateLimitedBeforeParsing` | src/app/api/contact/route.ts:53-62 | A rate-limited request gets 429, the map is unchanged and nothing is called. Changing its body, configuration or service outcomes changes nothing. |
| `ContactRouteFacts.InvalidSubmissionKeepsSlot` | src/app/api/contact/route.ts:55-70 | An admitted request that fails validation gets 400 "Invalid form data" with non-empty details. No call is made, and its rate-limit slot is still used. |
| `ContactRouteFacts.MissingSecretStopsBeforeVerification` | src/app/api/contact/route.ts:74-81 | An unset or empty secret gives 500 "Server configuration error", before any verification call or email. |
| `ContactRouteFacts.EmailSentExactlyWhenVerified` | src/app/api/contact/route.ts:74-137 | An email is sent iff all of these hold: the request is admitted, parses and validates; the secret is set; siteverify answers; `success` is truthy; and `score` is a number ≥ 0.5. |
| `ContactRouteFacts.SuccessExactlyWhenDelivered` | src/app/api/contact/route.ts:131-150 | 200 iff the email was sent and the transport reported no error. The body then carries the transport's id. A transport error gives 500 "Failed to send email. Please try again." |
| `ContactRouteFacts.FailedVerificationIs400` | src/app/api/contact/route.ts:94-102 | A siteverify reply with a falsy `success`, a non-numeric score or a score below 0.5 gives 400 "reCAPTCHA verification failed", with no email sent. |
| `ContactRouteFacts.ThrownExceptionsAre500` | src/app/api/contact/route.ts:151-157 | A body parse exception, a siteverify exception, or a send exception after admission all give 500 "Something went wrong. Please try again." |
| `ContactRouteFacts.VerificationCallFields` | src/app/api/contact/route.ts:83-92 | The siteverify call posts the configured secret, the submitted token and the rate-limit key as `remoteip`. |
| `ContactRouteFacts.EmailFields` | src/app/api/contact/route.ts:104-137 | The email goes to YOUR_EMAIL, or to jeesonfranz@gmail.com when that is unset or empty. Its subject is "New Booking Inquiry from " + name and its reply-to is the submitter's email. It repeats the submitted fields, and it has an event date exactly when `date` is a non-empty string. |
| `ContactRouteFacts.ComposedFields` | src/app/api/contact/route.ts:104-137 | For a body that validated, the composed email's sender, recipient fallback, subject and reply-to are as sent, its fields are the body's strings, and it has an event date iff `date` is truthy. `EmailFields` lifts this to the handler. |
| `ContactRouteFacts.ScoreThreshold` | src/app/api/contact/route.ts:95-97 | With a truthy `success`, a score of exactly 0.5 passes. A missing or non-numeric score counts as 0 and fails. |
| `ContactRouteFacts.SubmissionWithoutTokenIs400` | src/app/api/contact/route.ts:12 | Every admitted request whose body lacks a `recaptchaToken` property, or is not an object, gets 400, whatever the other fields and the configuration. |
| `ContactRouteFacts.ServeFollowsLimiter` | src/app/api/contact/route.ts:17-60 | Over a run of one client's requests, the handler answers 429 exactly where the limiter alone refuses, and leaves the limiter's final map. Bodies and remote outcomes make no difference. |
| `ContactRouteFacts.FirstHourAdmitsFiveSubmissions` | src/app/api/contact/route.ts:25-60 | From a fresh process, one client's submissions all strictly before the first one's time + 3600000: request i gets 429 iff i ≥ 5, whatever it contains. |
| `Js.Truthy` | src/app/api/contact/route.ts:97 | JavaScript truthiness: `undefined`, `null`, `false`, `0` and `""` are falsy, everything else truthy. The `!success` test here, the `date` test, the `error` test and the page's `result.error` test all use it. |
| `Js.Get` | src/app/api/contact/route.ts:63 | JavaScript property lookup on a parsed JSON object: a missing property reads as `undefined`. zod's field reads and every field the handler takes from the body use it. |
| `RateLimiter.Replay` | src/app/api/contact/route.ts:17-49 | Successive checks for one key thread the one process-wide map, with one decision per request. Its behaviour is pinned by `BurstWithinWindow` and `FirstWindowAdmitsFive`. |
| `ContactRoute.Score` | src/app/api/contact/route.ts:95 | The score is the reply's `score` when it is a number, and 0 otherwise. Pinned by `ScoreThreshold`. |
| `ContactRoute.HumanEnough` | src/app/api/contact/route.ts:97 | The reply admits the submission iff `success` is truthy and the score is at least 0.5. Pinned by `ScoreThreshold` and `EmailSentExactlyWhenVerified`. |
| `ContactRoute.Recipient` | src/app/api/contact/route.ts:104 | YOUR_EMAIL when set and non-empty, otherwise jeesonfranz@gmail.com. Pinned by `EmailFields`. |
| `ContactRoute.Compose` | src/app/api/contact/route.ts:104-137 | The email's sender, recipient, subject, reply-to and fields, with the event date only for a truthy `date`. Pinned by `EmailFields`. |
| `ContactRouteFacts.Serve` | src/app/api/contact/route.ts:17-60 | Requests handled one after another share the rate-limit map, with one response per request. Pinned by `ServeFollowsLimiter`. |
| `ContactPage.RequestBody` | src/app/contact/page.tsx:89 | The posted object is the form's fields plus `recaptchaToken`, a `null` token being sent as JSON null. Pinned by `RequestBodyFields`. |
| `ContactPage.ClientSchemaIsServerPrefix` | src/app/contact/page.tsx:13-20 | formSchema is contactSchema's first six fields, with the same limits and messages. contactSchema adds only the token rule. |
| `ContactPage.FormValidMeans` | src/app/contact/page.tsx:13-20 | The form is accepted iff name ≥ 2, email valid, phone ≥ 10, eventType ≥ 1 and message ≥ 10. The date is free. |
| `ContactPage.PlaceholderEventTypeRejected` | src/app/contact/page.tsx:17 | The "Select Type" option's empty value always fails the eventType minimum of 1. |
| `ContactPage.GetRecaptchaToken` | src/app/contact/page.tsx:56-77 | The result is `null` exactly when no site key is configured. A site key with the script not loaded rejects with "reCAPTCHA not loaded yet". Once loaded, it resolves iff execution yields a token, and the token is passed through. An Error rejection passes its message on, and any other rejection becomes "Failed to execute reCAPTCHA". |
| `ContactPage.InterpretBody` | src/app/contact/page.tsx:92-100 | An empty reply reads as `{}`. An unparseable reply reads as `{error: raw}`. A parsed object keeps its `error`. A parsed primitive or array has no `error`, so it reads as `undefined`, and a `null` reply is kept as null. |
| `ContactPage.UnexpectedResponseNeverChosen` | src/app/contact/page.tsx:96-99 | The text "Unexpected server response" only appears if the server itself sent it: the fallback branch is unreachable. |
| `ContactPage.Conclude` | src/app/contact/page.tsx:102-107 | A 2xx reply always means success, whatever the body. Otherwise the alert shows `result.error`, or "Failed to send message" when that is falsy. |
| `ContactPage.Submit` | src/app/contact/page.tsx:79-115 | A body is posted iff the form is valid and the token promise resolves, and it is `RequestBody` of the form and that token. A token rejection is alerted with its message, and a fetch exception with its message. A reply is shown as `Conclude` of its `ok` flag and the interpreted body. The attempt succeeds iff the form is valid, the token resolves and the reply is 2xx. |
| `ContactPage.FormFields` | src/app/contact/page.tsx:89 | The posted object never carries a `recaptchaToken` before the token is added. |
| `ContactFlow.RequestBodyFields` | src/app/contact/page.tsx:89 | The posted JSON carries the form's strings. `date` is left out when unset, and the token becomes a string or JSON null. |
| `ContactFlow.ServerAcceptsExactlyValidForms` | src/app/contact/page.tsx:89 | For a string token, the server accepts the page's body iff formSchema accepts the form and the token is non-empty. The accepted submission equals the form's values plus the token. |
| `ContactFlow.NullTokenFailsServerSchema` | src/app/contact/page.tsx:58-60 | A body sent with the `null` token always fails contactSchema, with a wrong-type issue on `recaptchaToken`. |
| `ContactFlow.SentBodyMeetsServerSchema` | src/app/contact/page.tsx:82-89 | Whatever the page sends meets contactSchema iff a site key is set, the script has loaded, and execution gave a non-empty token. |
| `ContactFlow.RepliesReachUser` | src/app/contact/page.tsx:92-107 | For every endpoint reply, the user sees the success banner iff the status is 200. Otherwise they get an alert with the endpoint's error text. |
| `ContactFlow.NullTokenRequestIs400` | src/app/api/contact/route.ts:12 | An admitted body built with the `null` token is answered 400 "Invalid form data". |
| `ContactFlow.NoSiteKeyShowsReply` | src/app/contact/page.tsx:58-103 | Without a site key, a valid form is posted with the `null` token, and a non-2xx reply's error text is alerted. |
| `ContactFlow.NoSiteKeyEndsInInvalidFormAlert` | src/app/contact/page.tsx:56-103 | Without a site key, a valid form that passes the rate limiter ends in the alert "Invalid form data". |
| `Zod.Satisfies` | src/app/api/contact/route.ts:6-12 | What each rule accepts: `min(n)` a string of at least n characters, `email()` a string the email test accepts, `optional()` a string or `undefined`. Tied to the schema by `ServerSchemaMeans` and to the issues by `CheckField`. |
| `Js.Configured` | src/app/api/contact/route.ts:75 | An environment variable tests truthy iff it is set and non-empty. The same test decides `RECAPTCHA_SECRET_KEY` here, the `YOUR_EMAIL` fallback at route.ts:104 and the site-key test at page.tsx:58. Pinned by `MissingSecretStopsBeforeVerification`, `EmailFields` and `GetRecaptchaToken`. |
| `ContactPage.StatusOk` | src/app/contact/page.tsx:102 | `response.ok` holds iff the status is in 200..299. Pinned by `Conclude` and `RepliesReachUser`. |
| `ContactRoute.ToSubmission` | src/app/api/contact/route.ts:72 | `validationResult.data` read as the seven fields, `date` absent when the property is undefined. Pinned by `Validate`. |
| `RateLimiter.OpensWindow` | src/app/api/contact/route.ts:32-38 | A request opens a new window iff the key has no record or `now` is strictly past its `resetAt`. Pinned by `Check`. |
| `ContactFlow.AsParsed` | src/app/contact/page.tsx:96 | How the page's `JSON.parse` reads the endpoint's replies: an error reply (route.ts:56-59 and the other error answers) is an object whose `error` is that text, and the success reply of route.ts:147-150 is an object with no `error`. Used by `RepliesReachUser`. |

## Left out

- Remote calls (`req.json()`, `fetch` to siteverify, `resend.emails.send`, the page's `fetch` and `response.text()`, `grecaptcha.execute`) are input outcomes, not network behaviour. Each is called at most once per request, so each is one value.
- `ContactRoute.VerifyThenDeliver`: the siteverify reply is reduced to its `success` and `score` properties. A `null` JSON reply, whose property read throws, is folded into the exception outcome.
- `Zod.CheckField`: string length is counted in Dafny characters, not JavaScript UTF-16 code units, so astral characters count once rather than twice. Zod's own wrong-type messages ("Required", "Expected string, received null") are a single `WrongType` issue.
- Zod's email grammar is not visible, so email validity is the parameter `emailOk`.
- `ContactPage.Conclude`: a truthy non-string `error` is kept as the value. The string conversion `new Error(value)` would apply is not modelled. A `null` reply body crashes at `result.error` when the status is not 2xx, and is shown as `AlertedTypeError`, without the engine's message text.
- `ContactPage.GetRecaptchaToken`: a `grecaptcha.ready` callback that never fires, leaving the promise unsettled, is not modelled.
- The `setTimeout` timer is not simulated: `Check` reports when it was set, and `Evict` is the callback as an explicit step. The interplay of a late timer with a reset record is therefore not modelled. A late timer can delete the record of a window that has already been reset, and the reset branch schedules no timer of its own.
- `RateLimiter.BurstWithinWindow`: a run never fires the deletion `setTimeout` schedules, so the lemma covers only requests strictly before `resetAt`. At exactly `resetAt` of a newly created record that deletion is due, so in the program the request may find no record and be admitted.
- `RateLimiter.FirstWindowAdmitsFive`: the run never fires the deletion the first request schedules, due at its time + 3600000, so the lemma covers only earlier requests. A request at that instant may find no record and be admitted.
- `RateLimiter.SixthRequestInWindowRefused`: for the same reason, a sixth request at exactly the first one's time + 3600000 is not covered; it may find the record deleted and be admitted.
- `ContactRouteFacts.FirstHourAdmitsFiveSubmissions`: `Serve` never fires the deletion either, so a submission at exactly the first one's time + 3600000 is not covered; it may find no record and be admitted.
- Concurrency: requests are handled one at a time. Interleaved requests racing on one key's record are not modelled.
- The HTML markup of the email body and all `console.*` logging are left out. Only the structured email fields are kept.
- The page's view state (`isSubmitting`, the five-second success banner timer, `reset()`), the reCAPTCHA script injection, and every other page, layout and UI component are rendering only.
- Module-load failures (for example, constructing the Resend client without a key) are outside the handler and not modelled.
