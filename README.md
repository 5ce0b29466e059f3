# SES notification handler — a Dafny model

This project models an AWS Lambda function that consumes Amazon SES
notifications (bounces, complaints and deliveries) delivered through SNS.
It also proves properties of that model. The model covers:

- **The entry point** (`SNSMessageHandler`). When the function instance
  starts, it chooses one handler from the `SES_NOTIFICATION_HANDLER_CLASS`
  environment variable. For each batch it then decodes every record in
  order and hands it to that handler. Whatever a record throws is logged
  as `Failed to handle message: <message>`, and the loop carries on.
- **The dispatcher** (`AbstractSESNotificationHandler.handleNotification`).
  It switches on the notification type and calls one of three hooks. A
  `null` type throws, as Java's string switch does. Any other string does
  nothing. The default hooks are empty.
- **The logging handler.** Each hook appends one log line with the
  payload's record `toString`.
- **The email-sending handler.** Its configuration comes from the
  environment. Each hook:
  1. logs a line;
  2. builds the template context, a nested string-keyed map, from the
     notification records;
  3. renders subject, HTML body and text body;
  4. sends one email from the configured sender to the configured
     recipient.
- **The rendering service.** The three renders run in order and stop at
  the first failure.
- **The `EnvVar` helpers.** Each has a default-taking form and a
  required form.

The observable state is the Lambda log, a `seq<string>` held by
`Lambda.Context`, and the sender's outbox, a `seq<SentEmail>` held by
`Sender.EmailSender`. Each imperative method is proved against a pure
specification function of the old state:

- `Effects.World` and `Effects.Step` hold the log, the outbox and the
  outcome.
- `Handlers.Effect` specifies one notification.
- `SnsMessageHandler.BatchEffect` specifies one batch.

The two concrete handler classes are the closed datatype
`Handlers.SesHandler`. Reflective class loading is a `Registry` from class
names to what their no-argument constructor produces.

Modules, one per file: `Wrappers`, `Model` (the decoded records), `Errors`
(the exceptions and their `getMessage()`), `Show` (record `toString`),
`TemplateContext`, `Rendering`, `EnvVar`, `Lambda`, `Sender`, `Effects`,
`Dispatch`, `LoggingHandler`, `SendEmailHandler`, `Handlers`,
`SnsMessageHandler`.

Where the code and its documentation differ, the model follows the code:

- The email-sending handler logs deliveries as `Delivery received: `,
  while the logging handler uses `Delivery made: `.
- Nothing ties `notificationType` to which payload is present: the hook
  receives whatever is there, and a missing payload makes the
  email-sending hook throw.

## Model

| member | source | states |
|---|---|---|
| Dispatch.Route | src/main/java/com/megafarad/seshandler/handler/ses/AbstractSESNotificationHandler.java:29-35 | Each exact type string selects exactly one hook, with `mail` and its own payload. The clauses are iffs, so at most one hook fires. Any other string, case variants included, selects nothing. A missing type throws a NullPointerException. |
| Dispatch.RouteIsCaseSensitive | src/main/java/com/megafarad/seshandler/handler/ses/AbstractSESNotificationHandler.java:30-34 | The lower-case spellings `bounce`, `complaint`, `delivery` and the upper-case spellings `BOUNCE`, `COMPLAINT`, `DELIVERY` reach no hook and raise no error. |
| Dispatch.DefaultHandleBounce | src/main/java/com/megafarad/seshandler/handler/ses/AbstractSESNotificationHandler.java:50-52 | The default bounce hook leaves the context unchanged. |
| Dispatch.DefaultHandleComplaint | src/main/java/com/megafarad/seshandler/handler/ses/AbstractSESNotificationHandler.java:68-70 | The default complaint hook leaves the context unchanged. |
| Dispatch.DefaultHandleDelivery | src/main/java/com/megafarad/seshandler/handler/ses/AbstractSESNotificationHandler.java:85-87 | The default delivery hook leaves the context unchanged. |
| Show.PayloadText | src/main/java/com/megafarad/seshandler/handler/ses/LoggingSESNotificationHandler.java:42-78 | A missing payload prints as `null`. A present bounce, complaint or delivery prints as a record text named `Bounce`, `Complaint` or `Delivery`. |
| Show.HandlerLineText | src/main/java/com/megafarad/seshandler/handler/ses/SendEmailSESNotificationHandler.java:160-210 | Each of the four hook lines is its fixed prefix followed by exactly the payload's text. All four are handler lines. |
| LoggingHandler.Lines | src/main/java/com/megafarad/seshandler/handler/ses/LoggingSESNotificationHandler.java:40-79 | A hook yields exactly one line with its own prefix and payload: `Bounce received: `, `Complaint received: ` or `Delivery made: `. An ignored type yields none. |
| LoggingHandler.LoggingSESNotificationHandler.HandleBounce | src/main/java/com/megafarad/seshandler/handler/ses/LoggingSESNotificationHandler.java:40-43 | After the no-op super call, the log gains exactly the bounce line. |
| LoggingHandler.LoggingSESNotificationHandler.HandleComplaint | src/main/java/com/megafarad/seshandler/handler/ses/LoggingSESNotificationHandler.java:59-62 | After the no-op super call, the log gains exactly the complaint line. |
| LoggingHandler.LoggingSESNotificationHandler.HandleDelivery | src/main/java/com/megafarad/seshandler/handler/ses/LoggingSESNotificationHandler.java:76-79 | After the no-op super call, the log gains exactly the `Delivery made: ` line. |
| EnvVar.GetEnvVarOrDefault | src/main/java/com/megafarad/seshandler/utils/EnvVar.java:21-29 | Returns the default when the variable is unset or empty. Otherwise it returns the value unchanged, including a whitespace-only value. |
| EnvVar.GetEnvVar | src/main/java/com/megafarad/seshandler/utils/EnvVar.java:41-48 | Fails exactly when the variable is unset or empty, with the message `Required environment variable <key>`. Otherwise it returns the non-empty value unchanged. |
| EnvVar.RequiredAgreesWithDefault | src/main/java/com/megafarad/seshandler/utils/EnvVar.java:21-48 | When the required lookup succeeds, the default-taking lookup returns the same value for every default. When it fails, the default-taking lookup returns the default. |
| Rendering.RenderTemplate | src/main/java/com/megafarad/seshandler/rendering/ProductionRenderingService.java:40-47 | The rendered text is the evaluation's output. An IOException becomes `Rendering template failed`. An engine exception propagates with its message. |
| Rendering.WriterFailuresLookAlike | src/main/java/com/megafarad/seshandler/rendering/ProductionRenderingService.java:44-45 | Any two renders that fail on the writer fail, with the same message, whatever the templates and contexts: the failure does not say which template it was. |
| Rendering.EngineMessageReachesCaller | src/main/java/com/megafarad/seshandler/rendering/ProductionRenderingService.java:40-47 | A render whose engine throws fails with exactly the engine's message. |
| Rendering.GenerateEmail | src/main/java/com/megafarad/seshandler/rendering/ProductionRenderingService.java:30-38 | The email exists iff all three renders succeed. Its subject, HTML body and text body are the renders of their own templates. A subject failure is the result's failure. |
| Rendering.GenerateEmailStopsAtFirstFailure | src/main/java/com/megafarad/seshandler/rendering/ProductionRenderingService.java:33-35 | When generation fails, its error is the error of the first render that failed, and every render before that one succeeded. No template after the failing one is evaluated. |
| TemplateContext.OfStrings | src/main/java/com/megafarad/seshandler/handler/ses/SendEmailSESNotificationHandler.java:230 | A string list is stored element by element, in order. `null` stays null. |
| TemplateContext.MapValues | src/main/java/com/megafarad/seshandler/handler/ses/SendEmailSESNotificationHandler.java:253-257 | A stream `map` keeps the length and the order, and converts each element. |
| TemplateContext.HeadersContext | src/main/java/com/megafarad/seshandler/handler/ses/SendEmailSESNotificationHandler.java:233-234 | The headers map has no more entries than there are headers. |
| TemplateContext.HeadersKeys | src/main/java/com/megafarad/seshandler/handler/ses/SendEmailSESNotificationHandler.java:233-235 | The headers map's key set is exactly the set of header names. |
| TemplateContext.HeadersLastWins | src/main/java/com/megafarad/seshandler/handler/ses/SendEmailSESNotificationHandler.java:233-235 | Each name maps to the value of the last header with that name. |
| TemplateContext.DuplicateHeaderKeepsLast | src/main/java/com/megafarad/seshandler/handler/ses/SendEmailSESNotificationHandler.java:234 | Two headers with one name leave a single entry holding the second value. |
| TemplateContext.CollectHeaders | src/main/java/com/megafarad/seshandler/handler/ses/SendEmailSESNotificationHandler.java:233-234 | The `forEach`/`put` loop builds exactly the headers map. |
| TemplateContext.CommonHeadersContext | src/main/java/com/megafarad/seshandler/handler/ses/SendEmailSESNotificationHandler.java:237-243 | Exactly the keys from, to, date, messageId and subject, each holding its field. |
| TemplateContext.MailFields | src/main/java/com/megafarad/seshandler/handler/ses/SendEmailSESNotificationHandler.java:221-245 | Exactly the eleven mail keys, each holding its same-named field. |
| TemplateContext.MailContext | src/main/java/com/megafarad/seshandler/handler/ses/SendEmailSESNotificationHandler.java:221-246 | Succeeds iff the mail, its headers and its common headers are present; otherwise NullPointerException. On success it is the mail fields with the headers map and the common-headers map. |
| TemplateContext.MailContextShape | src/main/java/com/megafarad/seshandler/handler/ses/SendEmailSESNotificationHandler.java:221-245 | For any mail with headers: the top-level keys are the eleven mail keys, the common-headers keys are always the same five whatever the header count, and the headers keys are the header names. |
| TemplateContext.BuildMailTemplateContext | src/main/java/com/megafarad/seshandler/handler/ses/SendEmailSESNotificationHandler.java:221-246 | The sequence of puts yields the mail context, or the NullPointerException. |
| TemplateContext.WithMail | src/main/java/com/megafarad/seshandler/handler/ses/SendEmailSESNotificationHandler.java:264-267 | The outer context has exactly the payload key and `mail`. |
| TemplateContext.BouncedRecipientContext | src/main/java/com/megafarad/seshandler/handler/ses/SendEmailSESNotificationHandler.java:272-281 | Exactly emailAddress, action, status and diagnosticCode, each holding its field. |
| TemplateContext.BounceFields | src/main/java/com/megafarad/seshandler/handler/ses/SendEmailSESNotificationHandler.java:249-262 | Exactly the seven bounce keys. `bouncedRecipients` has the input's length and order, each element being its recipient's context. |
| TemplateContext.BounceContext | src/main/java/com/megafarad/seshandler/handler/ses/SendEmailSESNotificationHandler.java:248-270 | Succeeds iff the bounce, its recipient list and the mail context can be built. A missing bounce or list throws first, before the mail is read. On success the keys are exactly {bounce, mail}. |
| TemplateContext.BuildBounceTemplateContext | src/main/java/com/megafarad/seshandler/handler/ses/SendEmailSESNotificationHandler.java:248-270 | The puts yield the bounce context. |
| TemplateContext.ComplainedRecipientContext | src/main/java/com/megafarad/seshandler/handler/ses/SendEmailSESNotificationHandler.java:305-311 | Exactly {emailAddress}. |
| TemplateContext.ComplaintFields | src/main/java/com/megafarad/seshandler/handler/ses/SendEmailSESNotificationHandler.java:284-296 | Exactly the seven complaint keys. The recipients' order and length are kept. |
| TemplateContext.ComplaintContext | src/main/java/com/megafarad/seshandler/handler/ses/SendEmailSESNotificationHandler.java:283-303 | Succeeds iff the complaint, its recipient list and the mail context can be built, with the errors in source order. On success the keys are exactly {complaint, mail}. |
| TemplateContext.ComplaintOptionalFieldsAsNull | src/main/java/com/megafarad/seshandler/handler/ses/SendEmailSESNotificationHandler.java:291-296 | Absent optional complaint fields are present as keys holding null, never a default. |
| TemplateContext.BuildComplaintTemplateContext | src/main/java/com/megafarad/seshandler/handler/ses/SendEmailSESNotificationHandler.java:283-303 | The puts yield the complaint context. |
| TemplateContext.DeliveryFields | src/main/java/com/megafarad/seshandler/handler/ses/SendEmailSESNotificationHandler.java:314-321 | Exactly the six delivery keys. `recipients` is the input list unchanged. |
| TemplateContext.DeliveryContext | src/main/java/com/megafarad/seshandler/handler/ses/SendEmailSESNotificationHandler.java:313-328 | Succeeds iff the delivery and the mail context can be built. On success the keys are exactly {delivery, mail}. |
| TemplateContext.BuildDeliveryTemplateContext | src/main/java/com/megafarad/seshandler/handler/ses/SendEmailSESNotificationHandler.java:313-328 | The puts yield the delivery context. |
| Errors.MessageNamesCause | src/main/java/com/megafarad/seshandler/handler/sns/SNSMessageHandler.java:89-95 | A missing variable's, unknown class's, non-handler's or load failure's message ends with the key or class name, after a prefix fixed for each kind. |
| Errors.MessageIdentifiesCause | src/main/java/com/megafarad/seshandler/utils/EnvVar.java:44 | Two configuration failures of one kind with the same message have the same key or class name. |
| Lambda.Context.Log | src/main/java/com/megafarad/seshandler/handler/sns/SNSMessageHandler.java:72 | Logging appends exactly the given line to the log. |
| Sender.EmailSender.Send | src/main/java/com/megafarad/seshandler/sender/ProductionEmailSender.java:37-63 | An accepted email is appended to the outbox. A refused one throws with the provider's message and leaves the outbox unchanged. |
| SendEmailHandler.BodyTemplate | src/main/java/com/megafarad/seshandler/handler/ses/SendEmailSESNotificationHandler.java:73-84 | A set, non-empty variable gives a file template at the variable's path. An unset or empty variable gives the packaged default path. |
| SendEmailHandler.SubjectTemplate | src/main/java/com/megafarad/seshandler/handler/ses/SendEmailSESNotificationHandler.java:85-90 | A set, non-empty variable gives a string template holding the variable's text. An unset or empty variable gives the fixed default subject. |
| SendEmailHandler.TemplatesFromEnv | src/main/java/com/megafarad/seshandler/handler/ses/SendEmailSESNotificationHandler.java:73-90 | For every one of the three kinds, whatever the environment: the subject is a non-empty string template, and both bodies are file templates with a non-empty path. |
| SendEmailHandler.TemplatesDefaultWhenUnset | src/main/java/com/megafarad/seshandler/handler/ses/SendEmailSESNotificationHandler.java:73-90 | With the nine template variables unset or empty, the packaged templates and the three fixed subjects are used. |
| SendEmailHandler.SettingsFromEnv | src/main/java/com/megafarad/seshandler/handler/ses/SendEmailSESNotificationHandler.java:68-93 | Configuration succeeds iff SENDER_EMAIL and RECIPIENT_EMAIL are both set and non-empty. The sender is reported first. The two addresses are the variables' values. |
| SendEmailHandler.SendEmailSESNotificationHandler.constructor | src/main/java/com/megafarad/seshandler/handler/ses/SendEmailSESNotificationHandler.java:115-141 | Every field holds its argument. |
| SendEmailHandler.SendEmailSESNotificationHandler.FromEnvironment | src/main/java/com/megafarad/seshandler/handler/ses/SendEmailSESNotificationHandler.java:68-93 | The no-argument constructor fails iff the configuration does, with its exception. On success it holds a new empty sender and the environment's templates and addresses. |
| SendEmailHandler.SendEmailSESNotificationHandler.Compose | src/main/java/com/megafarad/seshandler/handler/ses/SendEmailSESNotificationHandler.java:162-167 | A context failure stops the hook before rendering. Otherwise the email exists iff rendering succeeds, and it goes from the sender to the recipient with the three renders. |
| SendEmailHandler.SendEmailSESNotificationHandler.Respond | src/main/java/com/megafarad/seshandler/handler/ses/SendEmailSESNotificationHandler.java:160-167 | The line is logged first. The outbox grows by the composed email exactly when the hook passes, and is unchanged when it fails. |
| SendEmailHandler.SendEmailSESNotificationHandler.HookEffect | src/main/java/com/megafarad/seshandler/handler/ses/SendEmailSESNotificationHandler.java:158-218 | A hook logs exactly its line and sends at most one email: the composed one, or none when it fails. |
| SendEmailHandler.SendEmailSESNotificationHandler.BounceSendsItsRenders | src/main/java/com/megafarad/seshandler/handler/ses/SendEmailSESNotificationHandler.java:158-168 | A bounce logs `Bounce received: ` once. A context or rendering failure sends nothing. A passing bounce sends exactly one email from sender to recipient, rendered with the bounce templates. |
| SendEmailHandler.SendEmailSESNotificationHandler.ComplaintSendsItsRenders | src/main/java/com/megafarad/seshandler/handler/ses/SendEmailSESNotificationHandler.java:184-194 | The same for complaints, with the complaint templates and line. |
| SendEmailHandler.SendEmailSESNotificationHandler.DeliverySendsItsRenders | src/main/java/com/megafarad/seshandler/handler/ses/SendEmailSESNotificationHandler.java:208-218 | The same for deliveries, with the `Delivery received: ` line. |
| SendEmailHandler.SendEmailSESNotificationHandler.HandleBounce | src/main/java/com/megafarad/seshandler/handler/ses/SendEmailSESNotificationHandler.java:158-168 | The log, the outbox and the outcome are those of the bounce hook's effect. |
| SendEmailHandler.SendEmailSESNotificationHandler.HandleComplaint | src/main/java/com/megafarad/seshandler/handler/ses/SendEmailSESNotificationHandler.java:184-194 | The log, the outbox and the outcome are those of the complaint hook's effect. |
| SendEmailHandler.SendEmailSESNotificationHandler.HandleDelivery | src/main/java/com/megafarad/seshandler/handler/ses/SendEmailSESNotificationHandler.java:208-218 | The log, the outbox and the outcome are those of the delivery hook's effect. |
| SendEmailHandler.DefaultBounceSubject | src/main/java/com/megafarad/seshandler/handler/ses/SendEmailSESNotificationHandler.java:85-86 | With the default bounce subject, a composed bounce email has the subject `Bounce Email Notification` and goes from the sender to the recipient. |
| Handlers.Effect | src/main/java/com/megafarad/seshandler/handler/ses/AbstractSESNotificationHandler.java:29-35 | One notification logs at most one line, a handler line, and otherwise leaves the log alone. The logging handler never sends. A missing type throws with nothing done. An unknown type does nothing. |
| Handlers.HookLinesAreHandlerLines | src/main/java/com/megafarad/seshandler/handler/ses/SendEmailSESNotificationHandler.java:160-210 | The lines of both handlers are handler lines. |
| Handlers.LoggingHandlerLogsOnly | src/main/java/com/megafarad/seshandler/handler/ses/LoggingSESNotificationHandler.java:40-79 | For a typed notification the logging handler passes, sends nothing and logs exactly its one line. An unknown type changes nothing. |
| Handlers.SendEmailHandlerSendsOnce | src/main/java/com/megafarad/seshandler/handler/ses/SendEmailSESNotificationHandler.java:158-218 | For a known type the email-sending handler logs exactly one line. It sends exactly the composed email when it passes, and nothing when it throws. |
| Handlers.HandleNotification | src/main/java/com/megafarad/seshandler/handler/ses/AbstractSESNotificationHandler.java:29-35 | The log, the outbox and the outcome are the notification's effect on the old state. |
| SnsMessageHandler.Instantiate | src/main/java/com/megafarad/seshandler/handler/sns/SNSMessageHandler.java:84-96 | A named class yields its handler, or fails with `Failed to load handler class: <name>` around the cause. The cause is the class not being found, the constructor failing, the class not being a handler, or the email handler's configuration failing. |
| SnsMessageHandler.ResolveHandler | src/main/java/com/megafarad/seshandler/handler/sns/SNSMessageHandler.java:78-97 | An absent or blank selector gives the logging handler and loads nothing. Any other selector is loaded, and only loading can fail. |
| SnsMessageHandler.SelectorBlankIsNotEmpty | src/main/java/com/megafarad/seshandler/handler/sns/SNSMessageHandler.java:80 | Every selector that is blank but not empty picks the logging handler, though the default-taking lookup returns that same value as set. |
| SnsMessageHandler.SpaceAndTabIsBlank | src/main/java/com/megafarad/seshandler/handler/sns/SNSMessageHandler.java:80 | Such selectors exist: a space followed by a tab is blank and not empty. |
| SnsMessageHandler.StandardSendEmailSelection | src/main/java/com/megafarad/seshandler/handler/sns/SNSMessageHandler.java:84-95 | Naming the email handler class picks it with the environment's settings. A missing sender is a fatal load failure. |
| SnsMessageHandler.LoadHandlerFromEnv | src/main/java/com/megafarad/seshandler/handler/sns/SNSMessageHandler.java:78-97 | The handler built fails iff the selection rule does, with the same error. On success it is the chosen handler, built new with an empty outbox. |
| SnsMessageHandler.HandlersAreWellBehaved | src/main/java/com/megafarad/seshandler/handler/sns/SNSMessageHandler.java:70 | For both handlers, handling only appends lines to the log, and none of them is a failure line. |
| SnsMessageHandler.HandlerOutcomeIgnoresWorld | src/main/java/com/megafarad/seshandler/handler/sns/SNSMessageHandler.java:70 | Whether either handler throws on a notification does not depend on the log or the outbox before it. |
| SnsMessageHandler.IsJavaWhitespace | src/main/java/com/megafarad/seshandler/handler/sns/SNSMessageHandler.java:80 | Space, tab, newline and carriage return are whitespace. The no-break spaces U+00A0, U+2007 and U+202F are not, and neither are digits or letters. |
| SnsMessageHandler.IsBlank | src/main/java/com/megafarad/seshandler/handler/sns/SNSMessageHandler.java:80 | A string is blank iff each of its characters is whitespace. The empty string is blank. |
| SnsMessageHandler.FailureLine | src/main/java/com/megafarad/seshandler/handler/sns/SNSMessageHandler.java:72 | A caught exception's line is a failure line: `Failed to handle message: ` followed by exactly the exception's message. |
| SnsMessageHandler.Settle | src/main/java/com/megafarad/seshandler/handler/sns/SNSMessageHandler.java:70-73 | The catch keeps the handler's outbox. A handler that passed leaves its state untouched. |
| SnsMessageHandler.CatchKeepsHandlerWork | src/main/java/com/megafarad/seshandler/handler/sns/SNSMessageHandler.java:70-73 | The catch keeps every line logged before the throw and appends exactly one line, the exception's failure line. A pass appends nothing. |
| SnsMessageHandler.RecordEffect | src/main/java/com/megafarad/seshandler/handler/sns/SNSMessageHandler.java:68-73 | A record that fails to decode logs its failure line and sends nothing. A decoded record is handled, and its exception is caught. |
| SnsMessageHandler.BatchEffect | src/main/java/com/megafarad/seshandler/handler/sns/SNSMessageHandler.java:67-74 | An empty batch changes nothing. A one-record batch is that record's effect. With a well-behaved handler, the batch only appends to the log. |
| SnsMessageHandler.BatchEffectAppend | src/main/java/com/megafarad/seshandler/handler/sns/SNSMessageHandler.java:67-74 | Records are handled in order and no record stops the batch: a batch is its first part, then the rest run on the resulting state. |
| SnsMessageHandler.CountFailureLinesAppends | src/main/java/com/megafarad/seshandler/handler/sns/SNSMessageHandler.java:70 | Lines a handler appends never count as failure lines. |
| SnsMessageHandler.RecordFailureLines | src/main/java/com/megafarad/seshandler/handler/sns/SNSMessageHandler.java:68-73 | One record adds exactly one failure line when its decoding or its handling throws, and none otherwise. |
| SnsMessageHandler.FailureLinesCountFailingRecords | src/main/java/com/megafarad/seshandler/handler/sns/SNSMessageHandler.java:66-76 | For any handling that only appends non-failure lines, a batch adds as many failure lines as it has records that throw. Each record is judged in the world the loop has reached when it gets there. |
| SnsMessageHandler.HandlerFailureLinesCountFailingRecords | src/main/java/com/megafarad/seshandler/handler/sns/SNSMessageHandler.java:66-76 | The same count along the actual run, for either handler the entry point can hold. |
| SnsMessageHandler.LoggingHandling | src/main/java/com/megafarad/seshandler/handler/ses/LoggingSESNotificationHandler.java:40-79 | The logging handler adds its bounce or delivery line, and throws on a missing type. |
| SnsMessageHandler.LoggingRecord | src/main/java/com/megafarad/seshandler/handler/sns/SNSMessageHandler.java:68-73 | One record through the logging handler: a record that does not decode logs the decoder's failure line, a bounce or a delivery logs its line, and a notification without a type logs the switch's failure line. The outbox is unchanged. |
| SnsMessageHandler.LoggingBatchScenario | src/main/java/com/megafarad/seshandler/handler/sns/SNSMessageHandler.java:66-76 | A batch of a bounce, a malformed record, a delivery and an untyped notification logs the bounce line, the decoder's failure line, the delivery line and the switch's failure line, in that order. |
| SnsMessageHandler.BatchSteps | src/main/java/com/megafarad/seshandler/handler/sns/SNSMessageHandler.java:67-74 | A four-record batch is its records handled one after another. |
| SnsMessageHandler.SNSMessageHandler.constructor | src/main/java/com/megafarad/seshandler/handler/sns/SNSMessageHandler.java:30-31 | The handler and the decoder are fixed fields set once. |
| SnsMessageHandler.SNSMessageHandler.FromEnvironment | src/main/java/com/megafarad/seshandler/handler/sns/SNSMessageHandler.java:47-49 | The entry point starts iff the handler can be loaded. It then holds the chosen handler with an empty outbox. |
| SnsMessageHandler.SNSMessageHandler.HandleRecord | src/main/java/com/megafarad/seshandler/handler/sns/SNSMessageHandler.java:68-73 | One record: decoded and handled, or its exception logged, as the record's specification says. |
| SnsMessageHandler.SNSMessageHandler.HandleDecoded | src/main/java/com/megafarad/seshandler/handler/sns/SNSMessageHandler.java:70-73 | A handler's exception is logged after whatever it had already done. |
| SnsMessageHandler.SNSMessageHandler.HandleRequest | src/main/java/com/megafarad/seshandler/handler/sns/SNSMessageHandler.java:66-76 | The loop over all records always completes. Its log and outbox are the batch's specification applied to the old state. |

## Left out

- Pebble: template evaluation is an uninterpreted `Evaluator`. Autoescaping, the string loader and the `.peb` files are not modelled. A template that fails to load at construction is not modelled either.
- The AWS SES client is a `Provider` parameter that accepts an email or refuses it with a message. The request's structure is not modelled.
- Sender.EmailSender.Send: the provider's answer is a fixed function of the email. A refusal that depends on earlier sends, quota, throttling or time is not modelled. `HandlerOutcomeIgnoresWorld` holds only because of this; the failure count along a batch does not rely on it.
- SendEmailHandler.SendEmailSESNotificationHandler.FromEnvironment: creating the SES client (`SesClient.create()` in ProductionEmailSender.java:33, reached from SendEmailSESNotificationHandler.java:69) cannot fail in the model. In the code it can throw before any variable is read; the load failure's cause is then the SDK's exception, even when SENDER_EMAIL is also missing. The email-sending arm of `Instantiate` inherits this gap.
- Jackson decoding is a `Decoder` parameter from the SNS message text to a notification or an error message. The SNS envelope is reduced to the message strings.
- Reflection (`Class.forName`, `newInstance`) is a `Registry` from class names to what their constructor yields. Only the two handler implementations of this repository are modelled. A selector naming any other class can only resolve to a non-handler or to a failing constructor, so it fails to load. The code, by contrast, accepts any class that implements the handler interface. The `InvocationTargetException` layer around a failing constructor is collapsed: the load failure's cause is the constructor's own exception.
- `System.getenv` is an `Environment` map passed explicitly.
- The Lambda `Context` and logger are a log sequence.
- Errors.Message: the JVM's text for a NullPointerException is not modelled; a short description stands in.
- Header names and the elements of lists are never `null` in the model. All other record fields may be.
- The email-sending handler always uses the production rendering service. The service interface is not modelled separately.
- Determinism of rendering is not stated as a lemma, because every function in the model is deterministic by construction.
- Java `Long` is bounded by `Model.Int64`. No arithmetic is done on it.
- Handlers.OutboxOf: the logging handler has no sender, so its outbox is taken to be empty.
- SendEmailHandler.DefaultBounceSubject: assumes that the engine renders a string template without placeholders as its own text. That is Pebble's behaviour and is not derived from the model.
- Within one call to `handleNotification` nothing else runs concurrently. Concurrency between Lambda invocations is not modelled.
