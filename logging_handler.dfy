/** The logging handler: each hook logs one line naming the payload. */
module LoggingHandler {
  import opened Wrappers
  import opened Model
  import opened Show
  import opened Lambda
  import opened Dispatch

  /** The lines one routed notification adds to the log. */
  function Lines(hook: Hook): (lines: seq<string>)
    ensures hook.Ignored? <==> lines == []
    ensures hook.OnBounce? ==> lines == [BounceReceived(hook.bounce)]
    ensures hook.OnComplaint? ==> lines == [ComplaintReceived(hook.complaint)]
    ensures hook.OnDelivery? ==> lines == [DeliveryMade(hook.delivery)]
    ensures forall i :: 0 <= i < |lines| ==> IsHandlerLine(lines[i])
  {
    match hook
    case OnBounce(_, bounce) => [BounceReceived(bounce)]
    case OnComplaint(_, complaint) => [ComplaintReceived(complaint)]
    case OnDelivery(_, delivery) => [DeliveryMade(delivery)]
    case Ignored => []
  }

  class LoggingSESNotificationHandler {

    constructor()
    {
    }

    method HandleBounce(mail: Option<Mail>, bounce: Option<Bounce>, context: Context)
      modifies context
      ensures context.log == old(context.log) + Lines(OnBounce(mail, bounce))
    {
      DefaultHandleBounce(mail, bounce, context);
      context.Log(BounceReceived(bounce));
    }

    method HandleComplaint(mail: Option<Mail>, complaint: Option<Complaint>, context: Context)
      modifies context
      ensures context.log == old(context.log) + Lines(OnComplaint(mail, complaint))
    {
      DefaultHandleComplaint(mail, complaint, context);
      context.Log(ComplaintReceived(complaint));
    }

    method HandleDelivery(mail: Option<Mail>, delivery: Option<Delivery>, context: Context)
      modifies context
      ensures context.log == old(context.log) + Lines(OnDelivery(mail, delivery))
    {
      DefaultHandleDelivery(mail, delivery, context);
      context.Log(DeliveryMade(delivery));
    }
  }
}
