/** The `toString()` text of the records, as the payloads appear in log lines.
    Records print as `Name[field=value, ...]` (the OpenJDK record format),
    lists as `[a, b]`, and `null` as `null`. */
module Show {
  import opened Wrappers
  import opened Model

  function OptString(o: Option<string>): string {
    match o
    case None => "null"
    case Some(s) => s
  }

  function Digits(n: nat): (s: string)
    ensures |s| > 0
    ensures forall i :: 0 <= i < |s| ==> '0' <= s[i] <= '9'
  {
    var last := (('0' as int) + n % 10) as char;
    if n < 10 then [last] else Digits(n / 10) + [last]
  }

  function OptLong(o: Option<Int64>): string {
    match o
    case None => "null"
    case Some(n) => if n < 0 then "-" + Digits(-(n as int)) else Digits(n as int)
  }

  function Join(parts: seq<string>): string {
    if |parts| == 0 then ""
    else if |parts| == 1 then parts[0]
    else parts[0] + ", " + Join(parts[1..])
  }

  function List(parts: seq<string>): string {
    "[" + Join(parts) + "]"
  }

  function OptStrings(o: Option<seq<string>>): string {
    match o
    case None => "null"
    case Some(xs) => List(xs)
  }

  /** Text of the shape `Name[...]`. */
  predicate IsRecordText(name: string, text: string) {
    |text| > |name| + 1 && text[..|name| + 1] == name + "[" && text[|text| - 1] == ']'
  }

  /** `Name[f1=v1, f2=v2, ...]`. */
  function Record(name: string, fields: seq<string>): string {
    name + "[" + Join(fields) + "]"
  }

  function Field(name: string, value: string): string {
    name + "=" + value
  }

  function ShowBouncedRecipient(r: BouncedRecipient): string {
    Record("BouncedRecipient", [
      Field("emailAddress", OptString(r.emailAddress)),
      Field("action", OptString(r.action)),
      Field("status", OptString(r.status)),
      Field("diagnosticCode", OptString(r.diagnosticCode))])
  }

  function ShowComplainedRecipient(r: ComplainedRecipient): string {
    Record("ComplainedRecipient", [Field("emailAddress", OptString(r.emailAddress))])
  }

  /** A list the record holds, `null` when absent. */
  function OptList<T>(o: Option<seq<T>>, show: T -> string): string {
    match o
    case None => "null"
    case Some(xs) => List(seq(|xs|, i requires 0 <= i < |xs| => show(xs[i])))
  }

  function ShowBounce(o: Option<Bounce>): string {
    match o
    case None => "null"
    case Some(b) =>
      Record("Bounce", [
        Field("bounceType", OptString(b.bounceType)),
        Field("bounceSubType", OptString(b.bounceSubType)),
        Field("bouncedRecipients", OptList(b.bouncedRecipients, ShowBouncedRecipient)),
        Field("timestamp", OptString(b.timestamp)),
        Field("feedbackId", OptString(b.feedbackId)),
        Field("remoteMtaIp", OptString(b.remoteMtaIp)),
        Field("reportingMTA", OptString(b.reportingMTA))])
  }

  function ShowComplaint(o: Option<Complaint>): string {
    match o
    case None => "null"
    case Some(c) =>
      Record("Complaint", [
        Field("complainedRecipients", OptList(c.complainedRecipients, ShowComplainedRecipient)),
        Field("timestamp", OptString(c.timestamp)),
        Field("complaintSubType", OptString(c.complaintSubType)),
        Field("feedbackId", OptString(c.feedbackId)),
        Field("userAgent", OptString(c.userAgent)),
        Field("complaintFeedbackType", OptString(c.complaintFeedbackType)),
        Field("arrivalDate", OptString(c.arrivalDate))])
  }

  function ShowDelivery(o: Option<Delivery>): string {
    match o
    case None => "null"
    case Some(d) =>
      Record("Delivery", [
        Field("timestamp", OptString(d.timestamp)),
        Field("processingTimeMillis", OptLong(d.processingTimeMillis)),
        Field("recipients", OptStrings(d.recipients)),
        Field("smtpResponse", OptString(d.smtpResponse)),
        Field("reportingMTA", OptString(d.reportingMTA)),
        Field("remoteMtaIp", OptString(d.remoteMtaIp))])
  }

  // ---------------------------------------------------------------------------
  // The lines the notification handlers log

  function BounceReceived(bounce: Option<Bounce>): string {
    "Bounce received: " + ShowBounce(bounce)
  }

  function ComplaintReceived(complaint: Option<Complaint>): string {
    "Complaint received: " + ShowComplaint(complaint)
  }

  /** The logging handler's delivery line. */
  function DeliveryMade(delivery: Option<Delivery>): string {
    "Delivery made: " + ShowDelivery(delivery)
  }

  /** The email-sending handler's delivery line: its prefix differs from
      the logging handler's. */
  function DeliveryReceived(delivery: Option<Delivery>): string {
    "Delivery received: " + ShowDelivery(delivery)
  }

  /** A handler's own line starts with the payload kind's capital letter. */
  predicate IsHandlerLine(line: string) {
    |line| > 0 && line[0] in {'B', 'C', 'D'}
  }

  /** A record prints as its name, its fields in brackets. */
  lemma RecordText(name: string, fields: seq<string>)
    ensures IsRecordText(name, Record(name, fields))
    ensures Record(name, fields)[|name| + 1..|Record(name, fields)| - 1] == Join(fields)
  {
    var r := Record(name, fields);
    assert r[..|name| + 1] == name + "[";
    assert r[|name| + 1..|r| - 1] == Join(fields);
  }

  /** A payload prints as `null` when absent and as its record otherwise. */
  lemma PayloadText(bounce: Option<Bounce>, complaint: Option<Complaint>, delivery: Option<Delivery>)
    ensures bounce.None? ==> ShowBounce(bounce) == "null"
    ensures bounce.Some? ==> IsRecordText("Bounce", ShowBounce(bounce))
    ensures complaint.None? ==> ShowComplaint(complaint) == "null"
    ensures complaint.Some? ==> IsRecordText("Complaint", ShowComplaint(complaint))
    ensures delivery.None? ==> ShowDelivery(delivery) == "null"
    ensures delivery.Some? ==> IsRecordText("Delivery", ShowDelivery(delivery))
  {
    if bounce.Some? {
      var b := bounce.value;
      RecordText("Bounce", [
        Field("bounceType", OptString(b.bounceType)),
        Field("bounceSubType", OptString(b.bounceSubType)),
        Field("bouncedRecipients", OptList(b.bouncedRecipients, ShowBouncedRecipient)),
        Field("timestamp", OptString(b.timestamp)),
        Field("feedbackId", OptString(b.feedbackId)),
        Field("remoteMtaIp", OptString(b.remoteMtaIp)),
        Field("reportingMTA", OptString(b.reportingMTA))]);
    }
    if complaint.Some? {
      var c := complaint.value;
      RecordText("Complaint", [
        Field("complainedRecipients", OptList(c.complainedRecipients, ShowComplainedRecipient)),
        Field("timestamp", OptString(c.timestamp)),
        Field("complaintSubType", OptString(c.complaintSubType)),
        Field("feedbackId", OptString(c.feedbackId)),
        Field("userAgent", OptString(c.userAgent)),
        Field("complaintFeedbackType", OptString(c.complaintFeedbackType)),
        Field("arrivalDate", OptString(c.arrivalDate))]);
    }
    if delivery.Some? {
      var d := delivery.value;
      RecordText("Delivery", [
        Field("timestamp", OptString(d.timestamp)),
        Field("processingTimeMillis", OptLong(d.processingTimeMillis)),
        Field("recipients", OptStrings(d.recipients)),
        Field("smtpResponse", OptString(d.smtpResponse)),
        Field("reportingMTA", OptString(d.reportingMTA)),
        Field("remoteMtaIp", OptString(d.remoteMtaIp))]);
    }
  }

  /** Each handler line is its prefix followed by the payload's text, and
      starts with the payload kind's capital letter. */
  lemma HandlerLineText(bounce: Option<Bounce>, complaint: Option<Complaint>, delivery: Option<Delivery>)
    ensures BounceReceived(bounce)[..17] == "Bounce received: " && BounceReceived(bounce)[17..] == ShowBounce(bounce)
    ensures ComplaintReceived(complaint)[..20] == "Complaint received: "
         && ComplaintReceived(complaint)[20..] == ShowComplaint(complaint)
    ensures DeliveryMade(delivery)[..15] == "Delivery made: " && DeliveryMade(delivery)[15..] == ShowDelivery(delivery)
    ensures DeliveryReceived(delivery)[..19] == "Delivery received: "
         && DeliveryReceived(delivery)[19..] == ShowDelivery(delivery)
    ensures IsHandlerLine(BounceReceived(bounce)) && IsHandlerLine(ComplaintReceived(complaint))
    ensures IsHandlerLine(DeliveryMade(delivery)) && IsHandlerLine(DeliveryReceived(delivery))
  {
  }
}
