/** A notification handler as the batch consumer sees it: one of the two
    handler classes, behind the inherited `handleNotification`, which routes
    the notification and runs the chosen class's hook. */
module Handlers {
  import opened Wrappers
  import opened Model
  import opened Errors
  import opened Show
  import opened Sender
  import opened Effects
  import opened Lambda
  import opened Dispatch
  import opened LoggingHandler
  import opened SendEmailHandler

  datatype SesHandler =
    | Logging(logging: LoggingSESNotificationHandler)
    | SendEmail(sendEmail: SendEmailSESNotificationHandler)

  /** The objects a handler changes besides the invocation context. */
  function Mutables(h: SesHandler): set<object> {
    match h
    case Logging(_) => {}
    case SendEmail(s) => {s.emailSender}
  }

  /** The emails a handler's sender has had accepted; the logging handler
      has no sender and never sends. */
  function OutboxOf(h: SesHandler): seq<SentEmail>
    reads Mutables(h)
  {
    match h
    case Logging(_) => []
    case SendEmail(s) => s.emailSender.outbox
  }

  /** Whether `handleNotification` returns normally. It depends on the
      notification alone, not on what was logged or sent before. */
  function HandlingOutcome(h: SesHandler, n: SESNotification): Outcome<Failure> {
    match Route(n)
    case Failure(e) => Fail(e)
    case Success(hook) =>
      match h
      case Logging(_) => Pass
      case SendEmail(s) => s.HookOutcome(hook)
  }

  /** `handleNotification`: the switch, then the hook of the handler's own
      class. It logs at most one line, never a line starting as a failure
      report does, and the logging handler never sends. */
  function Effect(h: SesHandler, n: SESNotification, w: World): (s: Step)
    ensures s.outcome == HandlingOutcome(h, n)
    ensures |w.log| <= |s.world.log| <= |w.log| + 1 && s.world.log[..|w.log|] == w.log
    ensures forall i :: |w.log| <= i < |s.world.log| ==> IsHandlerLine(s.world.log[i])
    ensures h.Logging? ==> s.world.outbox == w.outbox
    ensures Route(n).Failure? ==> s == Step(w, Fail(Route(n).error))
    ensures Route(n) == Success(Ignored) ==> s == Step(w, Pass)
  {
    match Route(n)
    case Failure(e) => Step(w, Fail(e))
    case Success(hook) =>
      match h
      case Logging(_) =>
        HookLinesAreHandlerLines(hook);
        Step(World(w.log + Lines(hook), w.outbox), Pass)
      case SendEmail(s) =>
        HookLinesAreHandlerLines(hook);
        s.HookEffect(hook, w)
  }

  lemma HookLinesAreHandlerLines(hook: Hook)
    ensures forall i :: 0 <= i < |Lines(hook)| ==> IsHandlerLine(Lines(hook)[i])
    ensures hook.OnBounce? ==> IsHandlerLine(BounceReceived(hook.bounce))
    ensures hook.OnComplaint? ==> IsHandlerLine(ComplaintReceived(hook.complaint))
    ensures hook.OnDelivery? ==> IsHandlerLine(DeliveryReceived(hook.delivery))
  {
  }

  /** The logging handler: a bounce, complaint or delivery adds exactly its
      one line and sends nothing; anything else adds nothing. */
  lemma LoggingHandlerLogsOnly(h: SesHandler, n: SESNotification, w: World)
    requires h.Logging? && n.notificationType.Some?
    ensures var s := Effect(h, n, w);
      && s.outcome == Pass && s.world.outbox == w.outbox
      && (n.notificationType == Some("Bounce") ==> s.world.log == w.log + [BounceReceived(n.bounce)])
      && (n.notificationType == Some("Complaint") ==> s.world.log == w.log + [ComplaintReceived(n.complaint)])
      && (n.notificationType == Some("Delivery") ==> s.world.log == w.log + [DeliveryMade(n.delivery)])
      && (n.notificationType.value !in {"Bounce", "Complaint", "Delivery"} ==> s.world == w)
  {
  }

  /** The email-sending handler, for a recognised type: one line logged,
      then exactly the hook's composed email sent when handling returns
      normally, and nothing sent when it throws. */
  lemma SendEmailHandlerSendsOnce(h: SesHandler, n: SESNotification, w: World)
    requires h.SendEmail? && n.notificationType.Some?
    requires n.notificationType.value in {"Bounce", "Complaint", "Delivery"}
    ensures var s := Effect(h, n, w);
      var hook := Route(n).value;
      && |s.world.log| == |w.log| + 1
      && (s.outcome.Pass? ==> s.world.outbox == w.outbox + [h.sendEmail.ComposeFor(hook).value])
      && (s.outcome.Fail? ==> s.world.outbox == w.outbox)
  {
  }

  /** `handleNotification` on a handler object. */
  method HandleNotification(h: SesHandler, n: SESNotification, context: Context) returns (o: Outcome<Failure>)
    modifies context, Mutables(h)
    ensures Step(World(context.log, OutboxOf(h)), o) == Effect(h, n, World(old(context.log), old(OutboxOf(h))))
  {
    var route := Route(n);
    if route.Failure? {
      return Fail(route.error);
    }
    match route.value
    case OnBounce(mail, bounce) =>
      match h {
        case Logging(l) =>
          l.HandleBounce(mail, bounce, context);
          o := Pass;
        case SendEmail(s) =>
          o := s.HandleBounce(mail, bounce, context);
      }
    case OnComplaint(mail, complaint) =>
      match h {
        case Logging(l) =>
          l.HandleComplaint(mail, complaint, context);
          o := Pass;
        case SendEmail(s) =>
          o := s.HandleComplaint(mail, complaint, context);
      }
    case OnDelivery(mail, delivery) =>
      match h {
        case Logging(l) =>
          l.HandleDelivery(mail, delivery, context);
          o := Pass;
        case SendEmail(s) =>
          o := s.HandleDelivery(mail, delivery, context);
      }
    case Ignored =>
      o := Pass;
  }
}
