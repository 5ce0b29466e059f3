/** The template context: the untyped nested map the mail templates are
    evaluated against, and the builders that flatten a mail and one payload
    into it. The `Build*` methods follow the source's sequence of `put` calls;
    the functions without that prefix are their specifications. */
module TemplateContext {
  import opened Wrappers
  import opened Model
  import opened Errors

  /** A value a template can see: Java's `null`, a string, a boolean, a
      number, a `List`, or a `Map<String, Object>`. */
  datatype Value =
    | Null
    | Str(s: string)
    | Bool(b: bool)
    | Int(i: int)
    | VList(items: seq<Value>)
    | VMap(entries: map<string, Value>)

  /** Attribute access `v.key` as a template performs it: a missing key or
      a value that is not a map gives `null`. */
  function Attr(v: Value, key: string): Value {
    match v
    case VMap(m) => if key in m then m[key] else Null
    case _ => Null
  }

  /** The keys of a map value (none for any other value). */
  function Keys(v: Value): set<string> {
    match v
    case VMap(m) => m.Keys
    case _ => {}
  }

  function OfString(o: Option<string>): Value {
    match o
    case None => Null
    case Some(s) => Str(s)
  }

  function OfBool(o: Option<bool>): Value {
    match o
    case None => Null
    case Some(b) => Bool(b)
  }

  function OfLong(o: Option<Int64>): Value {
    match o
    case None => Null
    case Some(n) => Int(n as int)
  }

  /** A `List<String>` stored as it is. */
  function OfStrings(o: Option<seq<string>>): (v: Value)
    ensures o.None? <==> v == Null
    ensures o.Some? ==> v.VList? && |v.items| == |o.value|
    ensures o.Some? ==> forall i :: 0 <= i < |o.value| ==> v.items[i] == Str(o.value[i])
  {
    match o
    case None => Null
    case Some(xs) => VList(seq(|xs|, i requires 0 <= i < |xs| => Str(xs[i])))
  }

  /** `stream().map(f).collect(toList())`. */
  function MapValues<T>(xs: seq<T>, f: T -> Value): (vs: seq<Value>)
    ensures |vs| == |xs|
    ensures forall i :: 0 <= i < |xs| ==> vs[i] == f(xs[i])
  {
    seq(|xs|, i requires 0 <= i < |xs| => f(xs[i]))
  }

  const MailKeys: set<string> :=
    {"timestamp", "messageId", "source", "sourceArn", "sourceIp", "sendingAccountId",
     "callerIdentity", "destination", "headersTruncated", "headers", "commonHeaders"}
  const CommonHeadersKeys: set<string> := {"from", "to", "date", "messageId", "subject"}
  const BounceKeys: set<string> :=
    {"bounceType", "bounceSubType", "bouncedRecipients", "timestamp", "feedbackId",
     "remoteMtaIp", "reportingMTA"}
  const BouncedRecipientKeys: set<string> := {"emailAddress", "action", "status", "diagnosticCode"}
  const ComplaintKeys: set<string> :=
    {"complainedRecipients", "timestamp", "complaintSubType", "feedbackId", "userAgent",
     "complaintFeedbackType", "arrivalDate"}
  const DeliveryKeys: set<string> :=
    {"timestamp", "processingTimeMillis", "recipients", "smtpResponse", "reportingMTA", "remoteMtaIp"}

  // ---------------------------------------------------------------------------
  // Headers: one `put` per header, in list order.

  /** The header sub-map after putting the headers one by one. */
  function HeadersContext(headers: seq<MailHeader>): (m: map<string, Value>)
    ensures |m| <= |headers|
    decreases |headers|
  {
    if headers == [] then map[]
    else
      var last := headers[|headers| - 1];
      HeadersContext(headers[..|headers| - 1])[last.name := OfString(last.value)]
  }

  /** The keys of the header sub-map are exactly the header names. */
  lemma {:induction false} HeadersKeys(headers: seq<MailHeader>)
    ensures HeadersContext(headers).Keys == set h | h in headers :: h.name
    decreases |headers|
  {
    if headers != [] {
      var prefix := headers[..|headers| - 1];
      var last := headers[|headers| - 1];
      HeadersKeys(prefix);
      assert headers == prefix + [last];
      assert (set h | h in headers :: h.name) == (set h | h in prefix :: h.name) + {last.name};
    }
  }

  /** True when no header after position `i` has the name of header `i`. */
  predicate LastOfItsName(headers: seq<MailHeader>, i: int)
    requires 0 <= i < |headers|
  {
    forall j :: i < j < |headers| ==> headers[j].name != headers[i].name
  }

  /** A name that occurs several times maps to the value of its last
      occurrence. */
  lemma {:induction false} HeadersLastWins(headers: seq<MailHeader>, i: int)
    requires 0 <= i < |headers| && LastOfItsName(headers, i)
    ensures headers[i].name in HeadersContext(headers)
    ensures HeadersContext(headers)[headers[i].name] == OfString(headers[i].value)
    decreases |headers|
  {
    var n := |headers|;
    if i < n - 1 {
      var prefix := headers[..n - 1];
      assert prefix[i] == headers[i];
      assert LastOfItsName(prefix, i) by {
        forall j | i < j < n - 1 ensures prefix[j].name != prefix[i].name {
          assert prefix[j] == headers[j];
        }
      }
      HeadersLastWins(prefix, i);
    }
  }

  /** Two headers with the same name: the earlier value is lost. */
  lemma DuplicateHeaderKeepsLast(name: string, first: Option<string>, second: Option<string>)
    ensures HeadersContext([MailHeader(name, first), MailHeader(name, second)]) == map[name := OfString(second)]
  {
    var hs := [MailHeader(name, first), MailHeader(name, second)];
    assert hs[..1] == [MailHeader(name, first)];
    assert hs[..1][..0] == [];
    assert HeadersContext(hs[..1]) == map[name := OfString(first)];
  }

  /** The `forEach` loop over the headers. */
  method CollectHeaders(headers: seq<MailHeader>) returns (headersContext: map<string, Value>)
    ensures headersContext == HeadersContext(headers)
  {
    headersContext := map[];
    var i := 0;
    while i < |headers|
      invariant 0 <= i <= |headers|
      invariant headersContext == HeadersContext(headers[..i])
    {
      assert headers[..i + 1][..i] == headers[..i];
      headersContext := headersContext[headers[i].name := OfString(headers[i].value)];
      i := i + 1;
    }
    assert headers[..i] == headers;
  }

  // ---------------------------------------------------------------------------
  // Mail

  function CommonHeadersContext(ch: CommonHeaders): (v: Value)
    ensures Keys(v) == CommonHeadersKeys
    ensures Attr(v, "from") == OfStrings(ch.from) && Attr(v, "to") == OfStrings(ch.to)
    ensures Attr(v, "date") == OfString(ch.date) && Attr(v, "messageId") == OfString(ch.messageId)
    ensures Attr(v, "subject") == OfString(ch.subject)
  {
    VMap(map[
      "from" := OfStrings(ch.from),
      "to" := OfStrings(ch.to),
      "date" := OfString(ch.date),
      "messageId" := OfString(ch.messageId),
      "subject" := OfString(ch.subject)])
  }

  /** The mail map, given its two sub-maps already built: every field of
      the mail under its own name. */
  function MailFields(m: Mail, headers: Value, commonHeaders: Value): (v: Value)
    ensures Keys(v) == MailKeys
    ensures Attr(v, "timestamp") == OfString(m.timestamp)
    ensures Attr(v, "messageId") == OfString(m.messageId)
    ensures Attr(v, "source") == OfString(m.source)
    ensures Attr(v, "sourceArn") == OfString(m.sourceArn)
    ensures Attr(v, "sourceIp") == OfString(m.sourceIp)
    ensures Attr(v, "sendingAccountId") == OfString(m.sendingAccountId)
    ensures Attr(v, "callerIdentity") == OfString(m.callerIdentity)
    ensures Attr(v, "destination") == OfStrings(m.destination)
    ensures Attr(v, "headersTruncated") == OfBool(m.headersTruncated)
    ensures Attr(v, "headers") == headers
    ensures Attr(v, "commonHeaders") == commonHeaders
  {
    VMap(map[
      "timestamp" := OfString(m.timestamp),
      "messageId" := OfString(m.messageId),
      "source" := OfString(m.source),
      "sourceArn" := OfString(m.sourceArn),
      "sourceIp" := OfString(m.sourceIp),
      "sendingAccountId" := OfString(m.sendingAccountId),
      "callerIdentity" := OfString(m.callerIdentity),
      "destination" := OfStrings(m.destination),
      "headersTruncated" := OfBool(m.headersTruncated),
      "headers" := headers,
      "commonHeaders" := commonHeaders])
  }

  /** The mail context. A missing mail, header list or common-headers
      record is a NullPointerException. */
  function MailContext(mail: Option<Mail>): (r: Result<Value, Failure>)
    ensures r.Success? <==> mail.Some? && mail.value.headers.Some? && mail.value.commonHeaders.Some?
    ensures r.Failure? ==> r.error.NullPointer?
    ensures r.Success? ==> r.value == MailFields(mail.value, VMap(HeadersContext(mail.value.headers.value)), CommonHeadersContext(mail.value.commonHeaders.value))
  {
    match mail
    case None => Failure(NullPointer("mail"))
    case Some(m) =>
      match m.headers
      case None => Failure(NullPointer("headers"))
      case Some(headers) =>
        match m.commonHeaders
        case None => Failure(NullPointer("commonHeaders"))
        case Some(ch) => Success(MailFields(m, VMap(HeadersContext(headers)), CommonHeadersContext(ch)))
  }

  /** The mail map has exactly its eleven keys, the common-headers sub-map
      exactly its five, and the header sub-map exactly the header names. */
  lemma MailContextShape(mail: Mail)
    requires mail.headers.Some? && mail.commonHeaders.Some?
    ensures MailContext(Some(mail)).Success?
    ensures Keys(MailContext(Some(mail)).value) == MailKeys
    ensures Keys(Attr(MailContext(Some(mail)).value, "commonHeaders")) == CommonHeadersKeys
    ensures Keys(Attr(MailContext(Some(mail)).value, "headers")) == set h | h in mail.headers.value :: h.name
  {
    HeadersKeys(mail.headers.value);
  }

  method BuildMailTemplateContext(mail: Option<Mail>) returns (r: Result<Value, Failure>)
    ensures r == MailContext(mail)
  {
    if mail.None? {
      return Failure(NullPointer("mail"));
    }
    var m := mail.value;
    var context: map<string, Value> := map[];
    context := context["timestamp" := OfString(m.timestamp)];
    context := context["messageId" := OfString(m.messageId)];
    context := context["source" := OfString(m.source)];
    context := context["sourceArn" := OfString(m.sourceArn)];
    context := context["sourceIp" := OfString(m.sourceIp)];
    context := context["sendingAccountId" := OfString(m.sendingAccountId)];
    context := context["callerIdentity" := OfString(m.callerIdentity)];
    context := context["destination" := OfStrings(m.destination)];
    context := context["headersTruncated" := OfBool(m.headersTruncated)];

    if m.headers.None? {
      return Failure(NullPointer("headers"));
    }
    var headersContext := CollectHeaders(m.headers.value);
    context := context["headers" := VMap(headersContext)];

    if m.commonHeaders.None? {
      return Failure(NullPointer("commonHeaders"));
    }
    var ch := m.commonHeaders.value;
    var commonHeadersContext: map<string, Value> := map[];
    commonHeadersContext := commonHeadersContext["from" := OfStrings(ch.from)];
    commonHeadersContext := commonHeadersContext["to" := OfStrings(ch.to)];
    commonHeadersContext := commonHeadersContext["date" := OfString(ch.date)];
    commonHeadersContext := commonHeadersContext["messageId" := OfString(ch.messageId)];
    commonHeadersContext := commonHeadersContext["subject" := OfString(ch.subject)];
    context := context["commonHeaders" := VMap(commonHeadersContext)];

    return Success(VMap(context));
  }

  /** `{<name>: payload, mail: mailContext}`, the shape of all three
      notification contexts. */
  function WithMail(name: string, payload: Value, mailContext: Value): (v: Value)
    requires name != "mail"
    ensures Keys(v) == {name, "mail"}
    ensures Attr(v, name) == payload && Attr(v, "mail") == mailContext
  {
    VMap(map[name := payload, "mail" := mailContext])
  }

  // ---------------------------------------------------------------------------
  // Bounce

  function BouncedRecipientContext(recipient: BouncedRecipient): (v: Value)
    ensures Keys(v) == BouncedRecipientKeys
    ensures Attr(v, "emailAddress") == OfString(recipient.emailAddress)
    ensures Attr(v, "action") == OfString(recipient.action)
    ensures Attr(v, "status") == OfString(recipient.status)
    ensures Attr(v, "diagnosticCode") == OfString(recipient.diagnosticCode)
  {
    VMap(map[
      "emailAddress" := OfString(recipient.emailAddress),
      "action" := OfString(recipient.action),
      "status" := OfString(recipient.status),
      "diagnosticCode" := OfString(recipient.diagnosticCode)])
  }

  /** The bounce sub-map; the recipients keep their number and order. */
  function BounceFields(b: Bounce, recipients: seq<BouncedRecipient>): (v: Value)
    ensures Keys(v) == BounceKeys
    ensures Attr(v, "bounceType") == OfString(b.bounceType)
    ensures Attr(v, "bounceSubType") == OfString(b.bounceSubType)
    ensures Attr(v, "timestamp") == OfString(b.timestamp)
    ensures Attr(v, "feedbackId") == OfString(b.feedbackId)
    ensures Attr(v, "remoteMtaIp") == OfString(b.remoteMtaIp)
    ensures Attr(v, "reportingMTA") == OfString(b.reportingMTA)
    ensures var rs := Attr(v, "bouncedRecipients");
      && rs.VList? && |rs.items| == |recipients|
      && forall i :: 0 <= i < |recipients| ==> rs.items[i] == BouncedRecipientContext(recipients[i])
  {
    VMap(map[
      "bounceType" := OfString(b.bounceType),
      "bounceSubType" := OfString(b.bounceSubType),
      "bouncedRecipients" := VList(MapValues(recipients, BouncedRecipientContext)),
      "timestamp" := OfString(b.timestamp),
      "feedbackId" := OfString(b.feedbackId),
      "remoteMtaIp" := OfString(b.remoteMtaIp),
      "reportingMTA" := OfString(b.reportingMTA)])
  }

  /** The bounce context `{bounce: {...}, mail: {...}}`. The bounce is read
      before the mail, so a missing bounce or recipient list is the failure
      reported even when the mail is missing too. */
  function BounceContext(mail: Option<Mail>, bounce: Option<Bounce>): (r: Result<Value, Failure>)
    ensures r.Success? <==> bounce.Some? && bounce.value.bouncedRecipients.Some? && MailContext(mail).Success?
    ensures r.Failure? ==> r.error.NullPointer?
    ensures bounce.None? ==> r == Failure(NullPointer("bounce"))
    ensures bounce.Some? && bounce.value.bouncedRecipients.None? ==> r == Failure(NullPointer("bouncedRecipients"))
    ensures r.Success? ==> Keys(r.value) == {"bounce", "mail"}
    ensures r.Success? ==> Attr(r.value, "mail") == MailContext(mail).value
    ensures r.Success? ==> Attr(r.value, "bounce") == BounceFields(bounce.value, bounce.value.bouncedRecipients.value)
  {
    match bounce
    case None => Failure(NullPointer("bounce"))
    case Some(b) =>
      match b.bouncedRecipients
      case None => Failure(NullPointer("bouncedRecipients"))
      case Some(recipients) =>
        match MailContext(mail)
        case Failure(e) => Failure(e)
        case Success(mailContext) => Success(WithMail("bounce", BounceFields(b, recipients), mailContext))
  }

  method BuildBounceTemplateContext(mail: Option<Mail>, bounce: Option<Bounce>) returns (r: Result<Value, Failure>)
    ensures r == BounceContext(mail, bounce)
  {
    if bounce.None? {
      return Failure(NullPointer("bounce"));
    }
    var b := bounce.value;
    var bounceContext: map<string, Value> := map[];
    bounceContext := bounceContext["bounceType" := OfString(b.bounceType)];
    bounceContext := bounceContext["bounceSubType" := OfString(b.bounceSubType)];
    if b.bouncedRecipients.None? {
      return Failure(NullPointer("bouncedRecipients"));
    }
    bounceContext := bounceContext["bouncedRecipients" :=
      VList(MapValues(b.bouncedRecipients.value, BouncedRecipientContext))];
    bounceContext := bounceContext["timestamp" := OfString(b.timestamp)];
    bounceContext := bounceContext["feedbackId" := OfString(b.feedbackId)];
    bounceContext := bounceContext["remoteMtaIp" := OfString(b.remoteMtaIp)];
    bounceContext := bounceContext["reportingMTA" := OfString(b.reportingMTA)];

    var context: map<string, Value> := map[];
    context := context["bounce" := VMap(bounceContext)];
    var mailContext := BuildMailTemplateContext(mail);
    if mailContext.Failure? {
      return Failure(mailContext.error);
    }
    context := context["mail" := mailContext.value];
    return Success(VMap(context));
  }

  // ---------------------------------------------------------------------------
  // Complaint

  function ComplainedRecipientContext(recipient: ComplainedRecipient): (v: Value)
    ensures Keys(v) == {"emailAddress"}
    ensures Attr(v, "emailAddress") == OfString(recipient.emailAddress)
  {
    VMap(map["emailAddress" := OfString(recipient.emailAddress)])
  }

  /** The complaint sub-map. The optional fields are present as keys whether
      or not they are set; an unset one is `null`, never a default. */
  function ComplaintFields(c: Complaint, recipients: seq<ComplainedRecipient>): (v: Value)
    ensures Keys(v) == ComplaintKeys
    ensures Attr(v, "timestamp") == OfString(c.timestamp)
    ensures Attr(v, "complaintSubType") == OfString(c.complaintSubType)
    ensures Attr(v, "feedbackId") == OfString(c.feedbackId)
    ensures Attr(v, "userAgent") == OfString(c.userAgent)
    ensures Attr(v, "complaintFeedbackType") == OfString(c.complaintFeedbackType)
    ensures Attr(v, "arrivalDate") == OfString(c.arrivalDate)
    ensures var rs := Attr(v, "complainedRecipients");
      && rs.VList? && |rs.items| == |recipients|
      && forall i :: 0 <= i < |recipients| ==> rs.items[i] == ComplainedRecipientContext(recipients[i])
  {
    VMap(map[
      "complainedRecipients" := VList(MapValues(recipients, ComplainedRecipientContext)),
      "timestamp" := OfString(c.timestamp),
      "complaintSubType" := OfString(c.complaintSubType),
      "feedbackId" := OfString(c.feedbackId),
      "userAgent" := OfString(c.userAgent),
      "complaintFeedbackType" := OfString(c.complaintFeedbackType),
      "arrivalDate" := OfString(c.arrivalDate)])
  }

  /** The complaint context `{complaint: {...}, mail: {...}}`. */
  function ComplaintContext(mail: Option<Mail>, complaint: Option<Complaint>): (r: Result<Value, Failure>)
    ensures r.Success? <==> complaint.Some? && complaint.value.complainedRecipients.Some? && MailContext(mail).Success?
    ensures r.Failure? ==> r.error.NullPointer?
    ensures complaint.None? ==> r == Failure(NullPointer("complaint"))
    ensures complaint.Some? && complaint.value.complainedRecipients.None? ==> r == Failure(NullPointer("complainedRecipients"))
    ensures r.Success? ==> Keys(r.value) == {"complaint", "mail"}
    ensures r.Success? ==> Attr(r.value, "mail") == MailContext(mail).value
    ensures r.Success? ==> Attr(r.value, "complaint") == ComplaintFields(complaint.value, complaint.value.complainedRecipients.value)
  {
    match complaint
    case None => Failure(NullPointer("complaint"))
    case Some(c) =>
      match c.complainedRecipients
      case None => Failure(NullPointer("complainedRecipients"))
      case Some(recipients) =>
        match MailContext(mail)
        case Failure(e) => Failure(e)
        case Success(mailContext) => Success(WithMail("complaint", ComplaintFields(c, recipients), mailContext))
  }

  /** An unset optional complaint field is stored as `null` under its key,
      and a set one as its text. */
  lemma ComplaintOptionalFieldsAsNull(mail: Option<Mail>, c: Complaint)
    requires ComplaintContext(mail, Some(c)).Success?
    ensures var v := Attr(ComplaintContext(mail, Some(c)).value, "complaint");
      && "complaintFeedbackType" in Keys(v) && "complaintSubType" in Keys(v) && "userAgent" in Keys(v)
      && (Attr(v, "complaintFeedbackType") == Null <==> c.complaintFeedbackType.None?)
      && (Attr(v, "complaintSubType") == Null <==> c.complaintSubType.None?)
      && (Attr(v, "userAgent") == Null <==> c.userAgent.None?)
  {
  }

  method BuildComplaintTemplateContext(mail: Option<Mail>, complaint: Option<Complaint>) returns (r: Result<Value, Failure>)
    ensures r == ComplaintContext(mail, complaint)
  {
    if complaint.None? {
      return Failure(NullPointer("complaint"));
    }
    var c := complaint.value;
    var complaintContext: map<string, Value> := map[];
    if c.complainedRecipients.None? {
      return Failure(NullPointer("complainedRecipients"));
    }
    complaintContext := complaintContext["complainedRecipients" :=
      VList(MapValues(c.complainedRecipients.value, ComplainedRecipientContext))];
    complaintContext := complaintContext["timestamp" := OfString(c.timestamp)];
    complaintContext := complaintContext["complaintSubType" := OfString(c.complaintSubType)];
    complaintContext := complaintContext["feedbackId" := OfString(c.feedbackId)];
    complaintContext := complaintContext["userAgent" := OfString(c.userAgent)];
    complaintContext := complaintContext["complaintFeedbackType" := OfString(c.complaintFeedbackType)];
    complaintContext := complaintContext["arrivalDate" := OfString(c.arrivalDate)];

    var context: map<string, Value> := map[];
    context := context["complaint" := VMap(complaintContext)];
    var mailContext := BuildMailTemplateContext(mail);
    if mailContext.Failure? {
      return Failure(mailContext.error);
    }
    context := context["mail" := mailContext.value];
    return Success(VMap(context));
  }

  // ---------------------------------------------------------------------------
  // Delivery

  /** The delivery sub-map; the recipient list is stored unchanged. */
  function DeliveryFields(d: Delivery): (v: Value)
    ensures Keys(v) == DeliveryKeys
    ensures Attr(v, "timestamp") == OfString(d.timestamp)
    ensures Attr(v, "processingTimeMillis") == OfLong(d.processingTimeMillis)
    ensures Attr(v, "recipients") == OfStrings(d.recipients)
    ensures Attr(v, "smtpResponse") == OfString(d.smtpResponse)
    ensures Attr(v, "reportingMTA") == OfString(d.reportingMTA)
    ensures Attr(v, "remoteMtaIp") == OfString(d.remoteMtaIp)
  {
    VMap(map[
      "timestamp" := OfString(d.timestamp),
      "processingTimeMillis" := OfLong(d.processingTimeMillis),
      "recipients" := OfStrings(d.recipients),
      "smtpResponse" := OfString(d.smtpResponse),
      "reportingMTA" := OfString(d.reportingMTA),
      "remoteMtaIp" := OfString(d.remoteMtaIp)])
  }

  /** The delivery context `{delivery: {...}, mail: {...}}`. */
  function DeliveryContext(mail: Option<Mail>, delivery: Option<Delivery>): (r: Result<Value, Failure>)
    ensures r.Success? <==> delivery.Some? && MailContext(mail).Success?
    ensures r.Failure? ==> r.error.NullPointer?
    ensures delivery.None? ==> r == Failure(NullPointer("delivery"))
    ensures r.Success? ==> Keys(r.value) == {"delivery", "mail"}
    ensures r.Success? ==> Attr(r.value, "mail") == MailContext(mail).value
    ensures r.Success? ==> Attr(r.value, "delivery") == DeliveryFields(delivery.value)
  {
    match delivery
    case None => Failure(NullPointer("delivery"))
    case Some(d) =>
      match MailContext(mail)
      case Failure(e) => Failure(e)
      case Success(mailContext) => Success(WithMail("delivery", DeliveryFields(d), mailContext))
  }

  method BuildDeliveryTemplateContext(mail: Option<Mail>, delivery: Option<Delivery>) returns (r: Result<Value, Failure>)
    ensures r == DeliveryContext(mail, delivery)
  {
    if delivery.None? {
      return Failure(NullPointer("delivery"));
    }
    var d := delivery.value;
    var deliveryContext: map<string, Value> := map[];
    deliveryContext := deliveryContext["timestamp" := OfString(d.timestamp)];
    deliveryContext := deliveryContext["processingTimeMillis" := OfLong(d.processingTimeMillis)];
    deliveryContext := deliveryContext["recipients" := OfStrings(d.recipients)];
    deliveryContext := deliveryContext["smtpResponse" := OfString(d.smtpResponse)];
    deliveryContext := deliveryContext["reportingMTA" := OfString(d.reportingMTA)];
    deliveryContext := deliveryContext["remoteMtaIp" := OfString(d.remoteMtaIp)];

    var context: map<string, Value> := map[];
    context := context["delivery" := VMap(deliveryContext)];
    var mailContext := BuildMailTemplateContext(mail);
    if mailContext.Failure? {
      return Failure(mailContext.error);
    }
    context := context["mail" := mailContext.value];
    return Success(VMap(context));
  }
}
