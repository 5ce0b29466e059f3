/** The dispatch every notification handler inherits: a switch on the
    notification type that picks one hook, and the default hooks, which do
    nothing. */
module Dispatch {
  import opened Wrappers
  import opened Model
  import opened Errors
  import opened Lambda

  /** The hook a notification is routed to, with the arguments it is
      called with. */
  datatype Hook =
    | OnBounce(mail: Option<Mail>, bounce: Option<Bounce>)
    | OnComplaint(mail: Option<Mail>, complaint: Option<Complaint>)
    | OnDelivery(mail: Option<Mail>, delivery: Option<Delivery>)
    | Ignored

  /** The switch on `notificationType`. The match is exact and
      case-sensitive; a type outside the three is dropped without error; a
      missing type makes the switch itself throw. The payload handed over is
      the matching field, present or not. */
  function Route(n: SESNotification): (r: Result<Hook, Failure>)
    ensures r.Failure? <==> n.notificationType.None?
    ensures r.Failure? ==> r.error == NullPointer("notificationType")
    ensures r == Success(OnBounce(n.mail, n.bounce)) <==> n.notificationType == Some("Bounce")
    ensures r == Success(OnComplaint(n.mail, n.complaint)) <==> n.notificationType == Some("Complaint")
    ensures r == Success(OnDelivery(n.mail, n.delivery)) <==> n.notificationType == Some("Delivery")
    ensures r == Success(Ignored) <==>
      n.notificationType.Some? && n.notificationType.value !in {"Bounce", "Complaint", "Delivery"}
  {
    match n.notificationType
    case None => Failure(NullPointer("notificationType"))
    case Some(t) =>
      if t == "Bounce" then Success(OnBounce(n.mail, n.bounce))
      else if t == "Complaint" then Success(OnComplaint(n.mail, n.complaint))
      else if t == "Delivery" then Success(OnDelivery(n.mail, n.delivery))
      else Success(Ignored)
  }

  /** The switch compares exactly: the lower-case and the upper-case
      spellings of the three known types reach no hook. */
  lemma RouteIsCaseSensitive(n: SESNotification)
    requires n.notificationType in {Some("bounce"), Some("complaint"), Some("delivery"),
                                    Some("BOUNCE"), Some("COMPLAINT"), Some("DELIVERY")}
    ensures Route(n) == Success(Ignored)
  {
  }

  /** The default hooks: they change nothing. */
  method DefaultHandleBounce(mail: Option<Mail>, bounce: Option<Bounce>, context: Context)
    ensures unchanged(context)
  {
  }

  method DefaultHandleComplaint(mail: Option<Mail>, complaint: Option<Complaint>, context: Context)
    ensures unchanged(context)
  {
  }

  method DefaultHandleDelivery(mail: Option<Mail>, delivery: Option<Delivery>, context: Context)
    ensures unchanged(context)
  {
  }
}
