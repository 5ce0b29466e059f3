/** The email-sending handler: each hook logs the payload, flattens mail and
    payload into a template context, renders that kind's three templates and
    sends the result from the configured sender to the configured
    recipient. */
module SendEmailHandler {
  import opened Wrappers
  import opened Model
  import opened Errors
  import opened Show
  import opened TemplateContext
  import opened Rendering
  import opened EnvVar
  import opened Sender
  import opened Effects
  import opened Lambda
  import opened Dispatch

  /** The subject, HTML body and text body templates of one kind. */
  datatype KindTemplates = KindTemplates(subject: Template, htmlBody: Template, textBody: Template)

  datatype TemplateSet = TemplateSet(bounce: KindTemplates, complaint: KindTemplates, delivery: KindTemplates)

  /** What the no-argument constructor reads from the environment. */
  datatype SendEmailSettings = SendEmailSettings(templates: TemplateSet, senderEmail: string, recipientEmail: string)

  /** A body template is loaded by path; a subject template is its own
      source text. */
  function BodyTemplate(env: Environment, key: string, defaultPath: string): (t: Template)
    ensures key in env && env[key] != "" ==> t == FileTemplate(env[key])
    ensures key !in env || env[key] == "" ==> t == FileTemplate(defaultPath)
  {
    FileTemplate(GetEnvVarOrDefault(env, key, defaultPath))
  }

  function SubjectTemplate(env: Environment, key: string, defaultSubject: string): (t: Template)
    ensures key in env && env[key] != "" ==> t == StringTemplate(env[key])
    ensures key !in env || env[key] == "" ==> t == StringTemplate(defaultSubject)
  {
    StringTemplate(GetEnvVarOrDefault(env, key, defaultSubject))
  }

  const TemplateKeys: set<string> :=
    {"HTML_BOUNCE_TEMPLATE", "HTML_COMPLAINT_TEMPLATE", "HTML_DELIVERY_TEMPLATE",
     "TEXT_BOUNCE_TEMPLATE", "TEXT_COMPLAINT_TEMPLATE", "TEXT_DELIVERY_TEMPLATE",
     "BOUNCE_SUBJECT", "COMPLAINT_SUBJECT", "DELIVERY_SUBJECT"}

  /** The templates when none of the nine template variables is set. */
  const DefaultTemplates: TemplateSet := TemplateSet(
    KindTemplates(StringTemplate("Bounce Email Notification"),
                  FileTemplate("templates/html-bounce-notification.peb"),
                  FileTemplate("templates/text-bounce-notification.peb")),
    KindTemplates(StringTemplate("Complaint Email Notification"),
                  FileTemplate("templates/html-complaint-notification.peb"),
                  FileTemplate("templates/text-complaint-notification.peb")),
    KindTemplates(StringTemplate("Delivery Email Notification"),
                  FileTemplate("templates/html-delivery-notification.peb"),
                  FileTemplate("templates/text-delivery-notification.peb")))

  /** The nine templates: subjects are template text, bodies are template
      paths, and none of them is ever empty, since an empty variable falls
      back to its non-empty default. */
  function TemplatesFromEnv(env: Environment): (r: TemplateSet)
    ensures forall kind | kind in [r.bounce, r.complaint, r.delivery] ::
      && kind.subject.StringTemplate? && kind.subject.source != ""
      && kind.htmlBody.FileTemplate? && kind.htmlBody.path != ""
      && kind.textBody.FileTemplate? && kind.textBody.path != ""
  {
    TemplateSet(
      KindTemplates(SubjectTemplate(env, "BOUNCE_SUBJECT", "Bounce Email Notification"),
                    BodyTemplate(env, "HTML_BOUNCE_TEMPLATE", "templates/html-bounce-notification.peb"),
                    BodyTemplate(env, "TEXT_BOUNCE_TEMPLATE", "templates/text-bounce-notification.peb")),
      KindTemplates(SubjectTemplate(env, "COMPLAINT_SUBJECT", "Complaint Email Notification"),
                    BodyTemplate(env, "HTML_COMPLAINT_TEMPLATE", "templates/html-complaint-notification.peb"),
                    BodyTemplate(env, "TEXT_COMPLAINT_TEMPLATE", "templates/text-complaint-notification.peb")),
      KindTemplates(SubjectTemplate(env, "DELIVERY_SUBJECT", "Delivery Email Notification"),
                    BodyTemplate(env, "HTML_DELIVERY_TEMPLATE", "templates/html-delivery-notification.peb"),
                    BodyTemplate(env, "TEXT_DELIVERY_TEMPLATE", "templates/text-delivery-notification.peb")))
  }

  /** With every template variable unset or empty, the packaged templates
      and the fixed subjects are used. */
  lemma TemplatesDefaultWhenUnset(env: Environment)
    requires forall key :: key in TemplateKeys && key in env ==> env[key] == ""
    ensures TemplatesFromEnv(env) == DefaultTemplates
  {
    assert "BOUNCE_SUBJECT" in TemplateKeys && "COMPLAINT_SUBJECT" in TemplateKeys && "DELIVERY_SUBJECT" in TemplateKeys;
    assert "HTML_BOUNCE_TEMPLATE" in TemplateKeys && "HTML_COMPLAINT_TEMPLATE" in TemplateKeys && "HTML_DELIVERY_TEMPLATE" in TemplateKeys;
    assert "TEXT_BOUNCE_TEMPLATE" in TemplateKeys && "TEXT_COMPLAINT_TEMPLATE" in TemplateKeys && "TEXT_DELIVERY_TEMPLATE" in TemplateKeys;
  }

  /** The no-argument constructor's configuration: the nine templates with
      their defaults, then the required sender, then the required
      recipient. A missing or empty sender is reported before the
      recipient is looked at. */
  function SettingsFromEnv(env: Environment): (r: Result<SendEmailSettings, Failure>)
    ensures r.Success? <==> GetEnvVar(env, "SENDER_EMAIL").Success? && GetEnvVar(env, "RECIPIENT_EMAIL").Success?
    ensures GetEnvVar(env, "SENDER_EMAIL").Failure? ==> r == Failure(MissingEnvVar("SENDER_EMAIL"))
    ensures GetEnvVar(env, "SENDER_EMAIL").Success? && GetEnvVar(env, "RECIPIENT_EMAIL").Failure? ==>
      r == Failure(MissingEnvVar("RECIPIENT_EMAIL"))
    ensures r.Success? ==>
      && r.value.senderEmail == env["SENDER_EMAIL"] && r.value.senderEmail != ""
      && r.value.recipientEmail == env["RECIPIENT_EMAIL"] && r.value.recipientEmail != ""
      && r.value.templates == TemplatesFromEnv(env)
  {
    var templates := TemplatesFromEnv(env);
    var senderEmail :- GetEnvVar(env, "SENDER_EMAIL");
    var recipientEmail :- GetEnvVar(env, "RECIPIENT_EMAIL");
    Success(SendEmailSettings(templates, senderEmail, recipientEmail))
  }

  class SendEmailSESNotificationHandler {
    const emailSender: EmailSender
    /** The template engine behind every template of this handler. */
    const evaluate: Evaluator
    const templates: TemplateSet
    const senderEmail: string
    const recipientEmail: string

    constructor(emailSender: EmailSender, evaluate: Evaluator, templates: TemplateSet,
                senderEmail: string, recipientEmail: string)
      ensures this.emailSender == emailSender && this.evaluate == evaluate && this.templates == templates
      ensures this.senderEmail == senderEmail && this.recipientEmail == recipientEmail
    {
      this.emailSender := emailSender;
      this.evaluate := evaluate;
      this.templates := templates;
      this.senderEmail := senderEmail;
      this.recipientEmail := recipientEmail;
    }

    /** The no-argument constructor: a fresh sender on the production
        provider, the production engine, and the configuration read from the
        environment, which throws when the sender or recipient is unset. */
    static method FromEnvironment(env: Environment, provider: Provider, evaluate: Evaluator)
      returns (r: Result<SendEmailSESNotificationHandler, Failure>)
      ensures r.Success? <==> SettingsFromEnv(env).Success?
      ensures r.Failure? ==> r.error == SettingsFromEnv(env).error
      ensures r.Success? ==>
        && fresh(r.value) && fresh(r.value.emailSender)
        && r.value.emailSender.outbox == [] && r.value.emailSender.provider == provider
        && r.value.evaluate == evaluate
        && r.value.templates == SettingsFromEnv(env).value.templates
        && r.value.senderEmail == SettingsFromEnv(env).value.senderEmail
        && r.value.recipientEmail == SettingsFromEnv(env).value.recipientEmail
    {
      var settings := SettingsFromEnv(env);
      if settings.Failure? {
        return Failure(settings.error);
      }
      var sender := new EmailSender(provider);
      var handler := new SendEmailSESNotificationHandler(sender, evaluate, settings.value.templates,
                                                         settings.value.senderEmail, settings.value.recipientEmail);
      return Success(handler);
    }

    /** The email one kind's templates make of a template context: from the
        configured sender to the configured recipient, carrying the three
        renders. A context that could not be built, or the first render that
        fails, is the failure instead. */
    function Compose(kind: KindTemplates, context: Result<Value, Failure>): (r: Result<SentEmail, Failure>)
      ensures context.Failure? ==> r == Failure(context.error)
      ensures context.Success? ==>
        (r.Success? <==> GenerateEmail(evaluate, kind.subject, kind.htmlBody, kind.textBody, context.value).Success?)
      ensures context.Success? && r.Failure? ==>
        r.error == GenerateEmail(evaluate, kind.subject, kind.htmlBody, kind.textBody, context.value).error
      ensures r.Success? ==>
        && r.value.from == senderEmail && r.value.to == recipientEmail
        && r.value.subject == RenderTemplate(evaluate, kind.subject, context.value).value
        && r.value.htmlBody == RenderTemplate(evaluate, kind.htmlBody, context.value).value
        && r.value.textBody == RenderTemplate(evaluate, kind.textBody, context.value).value
    {
      var templateContext :- context;
      var email :- GenerateEmail(evaluate, kind.subject, kind.htmlBody, kind.textBody, templateContext);
      Success(SentEmail(senderEmail, recipientEmail, email.subject, email.htmlBody, email.textBody))
    }

    /** Whether handing over a composed email returns normally. */
    function Answer(composed: Result<SentEmail, Failure>): Outcome<Failure> {
      match composed
      case Failure(e) => Fail(e)
      case Success(email) =>
        match emailSender.provider(email)
        case None => Pass
        case Some(message) => Fail(SendFailed(message))
    }

    /** One hook after its line is logged: the email is sent only when it
        was composed, and is in the outbox only when the provider accepted
        it. */
    function Respond(w: World, line: string, composed: Result<SentEmail, Failure>): (s: Step)
      ensures s.world.log == w.log + [line]
      ensures s.outcome == Answer(composed)
      ensures s.outcome.Pass? ==> composed.Success? && s.world.outbox == w.outbox + [composed.value]
      ensures s.outcome.Fail? ==> s.world.outbox == w.outbox
    {
      var logged := World(w.log + [line], w.outbox);
      match composed
      case Failure(e) => Step(logged, Fail(e))
      case Success(email) =>
        match emailSender.provider(email)
        case None => Step(World(logged.log, logged.outbox + [email]), Pass)
        case Some(message) => Step(logged, Fail(SendFailed(message)))
    }

    /** The line a hook logs. */
    function LogLine(hook: Hook): string
      requires !hook.Ignored?
    {
      match hook
      case OnBounce(_, bounce) => BounceReceived(bounce)
      case OnComplaint(_, complaint) => ComplaintReceived(complaint)
      case OnDelivery(_, delivery) => DeliveryReceived(delivery)
    }

    /** The email a hook composes, from that kind's templates. */
    function ComposeFor(hook: Hook): Result<SentEmail, Failure>
      requires !hook.Ignored?
    {
      match hook
      case OnBounce(mail, bounce) => Compose(templates.bounce, BounceContext(mail, bounce))
      case OnComplaint(mail, complaint) => Compose(templates.complaint, ComplaintContext(mail, complaint))
      case OnDelivery(mail, delivery) => Compose(templates.delivery, DeliveryContext(mail, delivery))
    }

    /** Whether running a hook returns normally; this does not depend on
        what was logged or sent before. */
    function HookOutcome(hook: Hook): Outcome<Failure> {
      if hook.Ignored? then Pass else Answer(ComposeFor(hook))
    }

    /** A routed notification: the hook logs exactly one line and sends at
        most one email; an ignored notification does nothing. */
    function HookEffect(hook: Hook, w: World): (s: Step)
      ensures hook.Ignored? ==> s == Step(w, Pass)
      ensures !hook.Ignored? ==> s.world.log == w.log + [LogLine(hook)]
      ensures s.outcome == HookOutcome(hook)
      ensures s.outcome.Fail? ==> s.world.outbox == w.outbox
      ensures s.outcome.Pass? && !hook.Ignored? ==> s.world.outbox == w.outbox + [ComposeFor(hook).value]
    {
      if hook.Ignored? then Step(w, Pass) else Respond(w, LogLine(hook), ComposeFor(hook))
    }

    /** One bounce: the email sent is exactly the bounce templates'
        renders, from the sender to the recipient; a failure to build the
        context or to render sends nothing and is what the hook throws. */
    lemma BounceSendsItsRenders(mail: Option<Mail>, bounce: Option<Bounce>, w: World)
      ensures var s := HookEffect(OnBounce(mail, bounce), w);
        var context := BounceContext(mail, bounce);
        var t := templates.bounce;
        && s.world.log == w.log + [BounceReceived(bounce)]
        && (context.Failure? ==> s == Step(World(w.log + [BounceReceived(bounce)], w.outbox), Fail(context.error)))
        && (context.Success? && GenerateEmail(evaluate, t.subject, t.htmlBody, t.textBody, context.value).Failure? ==>
              s.world.outbox == w.outbox
              && s.outcome == Fail(GenerateEmail(evaluate, t.subject, t.htmlBody, t.textBody, context.value).error))
        && (s.outcome.Pass? ==>
              s.world.outbox == w.outbox + [SentEmail(senderEmail, recipientEmail,
                RenderTemplate(evaluate, t.subject, context.value).value,
                RenderTemplate(evaluate, t.htmlBody, context.value).value,
                RenderTemplate(evaluate, t.textBody, context.value).value)])
    {
      var s := HookEffect(OnBounce(mail, bounce), w);
      if s.outcome.Pass? {
        assert ComposeFor(OnBounce(mail, bounce)).Success?;
      }
    }

    /** The same for a complaint, with the complaint templates. */
    lemma ComplaintSendsItsRenders(mail: Option<Mail>, complaint: Option<Complaint>, w: World)
      ensures var s := HookEffect(OnComplaint(mail, complaint), w);
        var context := ComplaintContext(mail, complaint);
        var t := templates.complaint;
        && s.world.log == w.log + [ComplaintReceived(complaint)]
        && (context.Failure? ==> s == Step(World(w.log + [ComplaintReceived(complaint)], w.outbox), Fail(context.error)))
        && (context.Success? && GenerateEmail(evaluate, t.subject, t.htmlBody, t.textBody, context.value).Failure? ==>
              s.world.outbox == w.outbox
              && s.outcome == Fail(GenerateEmail(evaluate, t.subject, t.htmlBody, t.textBody, context.value).error))
        && (s.outcome.Pass? ==>
              s.world.outbox == w.outbox + [SentEmail(senderEmail, recipientEmail,
                RenderTemplate(evaluate, t.subject, context.value).value,
                RenderTemplate(evaluate, t.htmlBody, context.value).value,
                RenderTemplate(evaluate, t.textBody, context.value).value)])
    {
      var s := HookEffect(OnComplaint(mail, complaint), w);
      if s.outcome.Pass? {
        assert ComposeFor(OnComplaint(mail, complaint)).Success?;
      }
    }

    /** The same for a delivery, with the delivery templates; its log line
        is "Delivery received: ". */
    lemma DeliverySendsItsRenders(mail: Option<Mail>, delivery: Option<Delivery>, w: World)
      ensures var s := HookEffect(OnDelivery(mail, delivery), w);
        var context := DeliveryContext(mail, delivery);
        var t := templates.delivery;
        && s.world.log == w.log + [DeliveryReceived(delivery)]
        && (context.Failure? ==> s == Step(World(w.log + [DeliveryReceived(delivery)], w.outbox), Fail(context.error)))
        && (context.Success? && GenerateEmail(evaluate, t.subject, t.htmlBody, t.textBody, context.value).Failure? ==>
              s.world.outbox == w.outbox
              && s.outcome == Fail(GenerateEmail(evaluate, t.subject, t.htmlBody, t.textBody, context.value).error))
        && (s.outcome.Pass? ==>
              s.world.outbox == w.outbox + [SentEmail(senderEmail, recipientEmail,
                RenderTemplate(evaluate, t.subject, context.value).value,
                RenderTemplate(evaluate, t.htmlBody, context.value).value,
                RenderTemplate(evaluate, t.textBody, context.value).value)])
    {
      var s := HookEffect(OnDelivery(mail, delivery), w);
      if s.outcome.Pass? {
        assert ComposeFor(OnDelivery(mail, delivery)).Success?;
      }
    }

    method HandleBounce(mail: Option<Mail>, bounce: Option<Bounce>, context: Context) returns (o: Outcome<Failure>)
      modifies context, emailSender
      ensures Step(World(context.log, emailSender.outbox), o)
           == HookEffect(OnBounce(mail, bounce), World(old(context.log), old(emailSender.outbox)))
    {
      DefaultHandleBounce(mail, bounce, context);
      context.Log(BounceReceived(bounce));
      var templateContext := BuildBounceTemplateContext(mail, bounce);
      if templateContext.Failure? {
        return Fail(templateContext.error);
      }
      var email := GenerateEmail(evaluate, templates.bounce.subject, templates.bounce.htmlBody,
                                 templates.bounce.textBody, templateContext.value);
      if email.Failure? {
        return Fail(email.error);
      }
      o := emailSender.Send(senderEmail, recipientEmail, email.value.subject, email.value.htmlBody, email.value.textBody);
    }

    method HandleComplaint(mail: Option<Mail>, complaint: Option<Complaint>, context: Context) returns (o: Outcome<Failure>)
      modifies context, emailSender
      ensures Step(World(context.log, emailSender.outbox), o)
           == HookEffect(OnComplaint(mail, complaint), World(old(context.log), old(emailSender.outbox)))
    {
      DefaultHandleComplaint(mail, complaint, context);
      context.Log(ComplaintReceived(complaint));
      var templateContext := BuildComplaintTemplateContext(mail, complaint);
      if templateContext.Failure? {
        return Fail(templateContext.error);
      }
      var email := GenerateEmail(evaluate, templates.complaint.subject, templates.complaint.htmlBody,
                                 templates.complaint.textBody, templateContext.value);
      if email.Failure? {
        return Fail(email.error);
      }
      o := emailSender.Send(senderEmail, recipientEmail, email.value.subject, email.value.htmlBody, email.value.textBody);
    }

    method HandleDelivery(mail: Option<Mail>, delivery: Option<Delivery>, context: Context) returns (o: Outcome<Failure>)
      modifies context, emailSender
      ensures Step(World(context.log, emailSender.outbox), o)
           == HookEffect(OnDelivery(mail, delivery), World(old(context.log), old(emailSender.outbox)))
    {
      DefaultHandleDelivery(mail, delivery, context);
      context.Log(DeliveryReceived(delivery));
      var templateContext := BuildDeliveryTemplateContext(mail, delivery);
      if templateContext.Failure? {
        return Fail(templateContext.error);
      }
      var email := GenerateEmail(evaluate, templates.delivery.subject, templates.delivery.htmlBody,
                                 templates.delivery.textBody, templateContext.value);
      if email.Failure? {
        return Fail(email.error);
      }
      o := emailSender.Send(senderEmail, recipientEmail, email.value.subject, email.value.htmlBody, email.value.textBody);
    }
  }

  /** The engine prints this template source verbatim, whatever the
      context: what a template engine does with text that holds no tag. */
  ghost predicate RendersVerbatim(evaluate: Evaluator, source: string) {
    forall context :: evaluate(StringTemplate(source), context) == Success(source)
  }

  /** A bounce email composed with the default subject template has the
      subject "Bounce Email Notification" and goes from the configured
      sender to the configured recipient; by `HookEffect`, it is the one
      email a passing bounce adds to the outbox. */
  lemma DefaultBounceSubject(h: SendEmailSESNotificationHandler, mail: Option<Mail>, bounce: Option<Bounce>)
    requires RendersVerbatim(h.evaluate, "Bounce Email Notification")
    requires h.templates.bounce.subject == DefaultTemplates.bounce.subject
    requires h.ComposeFor(OnBounce(mail, bounce)).Success?
    ensures var email := h.ComposeFor(OnBounce(mail, bounce)).value;
      email.subject == "Bounce Email Notification" && email.from == h.senderEmail && email.to == h.recipientEmail
  {
    var context := BounceContext(mail, bounce);
    assert h.evaluate(StringTemplate("Bounce Email Notification"), context.value) == Success("Bounce Email Notification");
  }
}
