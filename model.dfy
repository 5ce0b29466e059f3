/** The decoded SES notification records (package `model`).

    Every field of a Java record may be `null` after JSON decoding, so every
    field is an `Option` here, with two exceptions: a header name, which the
    template context uses as a map key, and the elements of lists, which are
    never `null` in the model. */
module Model {
  import opened Wrappers

  /** Java's `Long`. */
  newtype Int64 = x: int | -0x8000_0000_0000_0000 <= x < 0x8000_0000_0000_0000

  datatype MailHeader = MailHeader(name: string, value: Option<string>)

  datatype CommonHeaders = CommonHeaders(
    from: Option<seq<string>>,
    to: Option<seq<string>>,
    date: Option<string>,
    messageId: Option<string>,
    subject: Option<string>)

  datatype Mail = Mail(
    timestamp: Option<string>,
    messageId: Option<string>,
    source: Option<string>,
    sourceArn: Option<string>,
    sourceIp: Option<string>,
    sendingAccountId: Option<string>,
    callerIdentity: Option<string>,
    destination: Option<seq<string>>,
    headersTruncated: Option<bool>,
    headers: Option<seq<MailHeader>>,
    commonHeaders: Option<CommonHeaders>)

  datatype BouncedRecipient = BouncedRecipient(
    emailAddress: Option<string>,
    action: Option<string>,
    status: Option<string>,
    diagnosticCode: Option<string>)

  datatype Bounce = Bounce(
    bounceType: Option<string>,
    bounceSubType: Option<string>,
    bouncedRecipients: Option<seq<BouncedRecipient>>,
    timestamp: Option<string>,
    feedbackId: Option<string>,
    remoteMtaIp: Option<string>,
    reportingMTA: Option<string>)

  datatype ComplainedRecipient = ComplainedRecipient(emailAddress: Option<string>)

  datatype Complaint = Complaint(
    complainedRecipients: Option<seq<ComplainedRecipient>>,
    timestamp: Option<string>,
    complaintSubType: Option<string>,
    feedbackId: Option<string>,
    userAgent: Option<string>,
    complaintFeedbackType: Option<string>,
    arrivalDate: Option<string>)

  datatype Delivery = Delivery(
    timestamp: Option<string>,
    processingTimeMillis: Option<Int64>,
    recipients: Option<seq<string>>,
    smtpResponse: Option<string>,
    reportingMTA: Option<string>,
    remoteMtaIp: Option<string>)

  /** One decoded notification. Nothing ties `notificationType` to which
      payload is present: the three payloads are independent nullable fields. */
  datatype SESNotification = SESNotification(
    notificationType: Option<string>,
    mail: Option<Mail>,
    bounce: Option<Bounce>,
    complaint: Option<Complaint>,
    delivery: Option<Delivery>)
}
