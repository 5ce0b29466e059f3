/** The Lambda entry point: it chooses the notification handler once, from
    the environment, and then feeds it every record of each batch, logging
    and swallowing whatever a record throws. */
module SnsMessageHandler {
  import opened Wrappers
  import opened Model
  import opened Errors
  import opened Show
  import opened EnvVar
  import opened Sender
  import opened Effects
  import opened Lambda
  import opened Dispatch
  import opened Rendering
  import opened LoggingHandler
  import opened SendEmailHandler
  import opened Handlers

  // ---------------------------------------------------------------------------
  // Choosing the handler

  const HandlerClassKey := "SES_NOTIFICATION_HANDLER_CLASS"

  /** `Character.isWhitespace`: the ASCII controls tab to carriage return,
      the four separators U+001C to U+001F, and the Unicode space, line and
      paragraph separators other than the three non-breaking ones. */
  function IsJavaWhitespace(c: char): (b: bool)
    ensures c == ' ' || c == '\t' || c == '\n' || c == '\r' ==> b
    ensures c as int == 0xA0 || c as int == 0x2007 || c as int == 0x202F ==> !b
    ensures '0' <= c <= '9' || 'a' <= c <= 'z' || 'A' <= c <= 'Z' ==> !b
  {
    var u := c as int;
    || 0x09 <= u <= 0x0D
    || 0x1C <= u <= 0x20
    || u == 0x1680
    || 0x2000 <= u <= 0x2006
    || 0x2008 <= u <= 0x200A
    || u == 0x2028 || u == 0x2029
    || u == 0x205F
    || u == 0x3000
  }

  /** `String.isBlank`: empty, or white space only. */
  function IsBlank(s: string): (b: bool)
    ensures s == "" ==> b
    ensures b <==> forall c | c in s :: IsJavaWhitespace(c)
  {
    forall i :: 0 <= i < |s| ==> IsJavaWhitespace(s[i])
  }

  /** What a class name resolves to when it is loaded and instantiated
      with its no-argument constructor. */
  datatype ClassEntry =
    | LoggingHandlerClass
    | SendEmailHandlerClass
    | NonHandlerClass
      /** Its constructor throws, or it has no accessible one. */
    | FailingConstructor(message: string)

  /** The classes that can be loaded by name; any other name is not found. */
  type Registry = map<string, ClassEntry>

  const HandlerPackage := "com.megafarad.seshandler.handler.ses."
  const LoggingHandlerClassName := HandlerPackage + "LoggingSESNotificationHandler"
  const SendEmailHandlerClassName := HandlerPackage + "SendEmailSESNotificationHandler"

  const StandardRegistry: Registry := map[
    LoggingHandlerClassName := LoggingHandlerClass,
    SendEmailHandlerClassName := SendEmailHandlerClass]

  /** The handler that is to be constructed. */
  datatype HandlerChoice = UseLogging | UseSendEmail(settings: SendEmailSettings)

  /** Loading a named class: it must be found, constructed and be a
      handler; every other outcome is fatal and reported as "Failed to load
      handler class: <name>" around the cause. */
  function Instantiate(name: string, registry: Registry, env: Environment): (r: Result<HandlerChoice, Failure>)
    ensures r.Failure? ==> r.error.LoadFailed? && r.error.className == name
    ensures r.Failure? ==> Message(r.error) == "Failed to load handler class: " + name
    ensures name !in registry ==> r == Failure(LoadFailed(name, ClassNotFound(name)))
    ensures name in registry && registry[name] == LoggingHandlerClass ==> r == Success(UseLogging)
    ensures name in registry && registry[name] == NonHandlerClass ==> r == Failure(LoadFailed(name, NotAHandler(name)))
    ensures name in registry && registry[name].FailingConstructor? ==>
      r == Failure(LoadFailed(name, ConstructorFailed(registry[name].message)))
    ensures name in registry && registry[name] == SendEmailHandlerClass ==>
      && (r.Success? <==> SettingsFromEnv(env).Success?)
      && (r.Success? ==> r.value == UseSendEmail(SettingsFromEnv(env).value))
      && (r.Failure? ==> r.error.cause == SettingsFromEnv(env).error)
  {
    if name !in registry then Failure(LoadFailed(name, ClassNotFound(name)))
    else
      match registry[name]
      case LoggingHandlerClass => Success(UseLogging)
      case NonHandlerClass => Failure(LoadFailed(name, NotAHandler(name)))
      case FailingConstructor(message) => Failure(LoadFailed(name, ConstructorFailed(message)))
      case SendEmailHandlerClass =>
        match SettingsFromEnv(env)
        case Success(settings) => Success(UseSendEmail(settings))
        case Failure(e) => Failure(LoadFailed(name, e))
  }

  /** The selection rule: no selector, or a blank one, gives the logging
      handler without loading anything; any other selector is loaded. */
  function ResolveHandler(env: Environment, registry: Registry): (r: Result<HandlerChoice, Failure>)
    ensures HandlerClassKey !in env || IsBlank(env[HandlerClassKey]) ==> r == Success(UseLogging)
    ensures HandlerClassKey in env && !IsBlank(env[HandlerClassKey]) ==>
      r == Instantiate(env[HandlerClassKey], registry, env)
    ensures r.Failure? ==> HandlerClassKey in env && !IsBlank(env[HandlerClassKey])
  {
    if HandlerClassKey !in env || IsBlank(env[HandlerClassKey]) then Success(UseLogging)
    else Instantiate(env[HandlerClassKey], registry, env)
  }

  /** The selector is tested with `isBlank`, the other variables with
      `isEmpty`: a selector of spaces picks the logging handler, while the
      same spaces are a real value to the default-taking lookup. */
  lemma SelectorBlankIsNotEmpty(env: Environment, registry: Registry, defaultValue: string)
    requires HandlerClassKey in env && env[HandlerClassKey] != "" && IsBlank(env[HandlerClassKey])
    ensures ResolveHandler(env, registry) == Success(UseLogging)
    ensures GetEnvVarOrDefault(env, HandlerClassKey, defaultValue) == env[HandlerClassKey]
  {
  }

  /** Such selectors exist: a space and a tab is blank but not empty. */
  lemma SpaceAndTabIsBlank()
    ensures IsBlank(" \t") && " \t" != ""
  {
    assert IsJavaWhitespace(' ') && IsJavaWhitespace('\t');
  }

  /** Naming the email-sending handler in the standard registry, with the
      sender and recipient set, chooses it with the environment's settings;
      with the sender missing, start-up fails on it. */
  lemma StandardSendEmailSelection(env: Environment)
    requires HandlerClassKey in env && env[HandlerClassKey] == SendEmailHandlerClassName
    ensures GetEnvVar(env, "SENDER_EMAIL").Success? && GetEnvVar(env, "RECIPIENT_EMAIL").Success? ==>
      ResolveHandler(env, StandardRegistry) == Success(UseSendEmail(SettingsFromEnv(env).value))
    ensures GetEnvVar(env, "SENDER_EMAIL").Failure? ==>
      ResolveHandler(env, StandardRegistry) == Failure(LoadFailed(SendEmailHandlerClassName, MissingEnvVar("SENDER_EMAIL")))
  {
    assert HandlerPackage[0] == 'c';
    assert SendEmailHandlerClassName[0] == 'c';
    assert StandardRegistry[SendEmailHandlerClassName] == SendEmailHandlerClass;
  }

  /** The handler object built for a choice. */
  ghost predicate Builds(h: SesHandler, choice: HandlerChoice, provider: Provider, evaluate: Evaluator) {
    match choice
    case UseLogging => h.Logging?
    case UseSendEmail(settings) =>
      && h.SendEmail?
      && h.sendEmail.emailSender.provider == provider
      && h.sendEmail.evaluate == evaluate
      && h.sendEmail.templates == settings.templates
      && h.sendEmail.senderEmail == settings.senderEmail
      && h.sendEmail.recipientEmail == settings.recipientEmail
  }

  /** `loadHandlerFromEnv`: class lookup and reflective construction are
      the registry; the production email provider and template engine are
      parameters. */
  method LoadHandlerFromEnv(env: Environment, registry: Registry, provider: Provider, evaluate: Evaluator)
    returns (r: Result<SesHandler, Failure>)
    ensures r.Success? <==> ResolveHandler(env, registry).Success?
    ensures r.Failure? ==> r.error == ResolveHandler(env, registry).error
    ensures r.Success? ==> Builds(r.value, ResolveHandler(env, registry).value, provider, evaluate)
    ensures r.Success? ==> fresh(Mutables(r.value)) && OutboxOf(r.value) == []
  {
    if HandlerClassKey !in env || IsBlank(env[HandlerClassKey]) {
      var logging := new LoggingSESNotificationHandler();
      return Success(Logging(logging));
    }
    var name := env[HandlerClassKey];
    if name !in registry {
      return Failure(LoadFailed(name, ClassNotFound(name)));
    }
    match registry[name]
    case LoggingHandlerClass =>
      var logging := new LoggingSESNotificationHandler();
      r := Success(Logging(logging));
    case NonHandlerClass =>
      r := Failure(LoadFailed(name, NotAHandler(name)));
    case FailingConstructor(message) =>
      r := Failure(LoadFailed(name, ConstructorFailed(message)));
    case SendEmailHandlerClass =>
      var created := SendEmailSESNotificationHandler.FromEnvironment(env, provider, evaluate);
      if created.Failure? {
        r := Failure(LoadFailed(name, created.error));
      } else {
        r := Success(SendEmail(created.value));
      }
  }

  // ---------------------------------------------------------------------------
  // Consuming a batch

  /** The batch consumer knows the handler only through
      `handleNotification`. */
  type Handling = (SESNotification, World) -> Step

  function HandlingOf(h: SesHandler): Handling {
    (n: SESNotification, w: World) => Effect(h, n, w)
  }

  /** What the consumer relies on: handling only appends lines to the log,
      none of them a failure report. */
  ghost predicate WellBehaved(handle: Handling) {
    forall n: SESNotification, w: World :: Appends(w.log, handle(n, w).world.log)
  }

  /** `after` is `before` and then lines that are not failure reports. */
  predicate Appends(before: seq<string>, after: seq<string>) {
    && |before| <= |after| && after[..|before|] == before
    && forall i :: |before| <= i < |after| ==> !IsFailureLine(after[i])
  }

  lemma HandlersAreWellBehaved(h: SesHandler)
    ensures WellBehaved(HandlingOf(h))
  {
    forall n: SESNotification, w: World
      ensures Appends(w.log, HandlingOf(h)(n, w).world.log)
    {
      var s := Effect(h, n, w);
      forall i | |w.log| <= i < |s.world.log|
        ensures !IsFailureLine(s.world.log[i])
      {
        HandlerLineIsNotFailureLine(s.world.log[i]);
      }
    }
  }

  /** Whether either handler throws on a notification does not depend on
      the log or the outbox before it. This rests on the provider's answer
      being a function of the email alone. */
  lemma HandlerOutcomeIgnoresWorld(h: SesHandler, n: SESNotification, w1: World, w2: World)
    ensures HandlingOf(h)(n, w1).outcome == HandlingOf(h)(n, w2).outcome
  {
  }

  const FailurePrefix := "Failed to handle message: "

  /** The line the consumer logs for a record that threw. */
  function FailureLine(f: Failure): (line: string)
    ensures IsFailureLine(line)
    ensures line[|FailurePrefix|..] == Message(f)
  {
    FailurePrefix + Message(f)
  }

  predicate IsFailureLine(line: string) {
    |FailurePrefix| <= |line| && line[..|FailurePrefix|] == FailurePrefix
  }

  lemma HandlerLineIsNotFailureLine(line: string)
    requires IsHandlerLine(line)
    ensures !IsFailureLine(line)
  {
  }

  /** One record: decoded and handled, or the decoder's or the handler's
      exception logged as a failure line. */
  function RecordEffect(handle: Handling, decode: Decoder, record: string, w: World): (after: World)
    ensures decode(record).Failure? ==>
      after == World(w.log + [FailureLine(DecodeFailed(decode(record).error))], w.outbox)
    ensures decode(record).Success? ==> after == Settle(handle(decode(record).value, w))
  {
    match decode(record)
    case Failure(message) => World(w.log + [FailureLine(DecodeFailed(message))], w.outbox)
    case Success(n) => Settle(handle(n, w))
  }

  /** The loop's catch block: a handler's exception is logged and the world
      it left is kept. */
  function Settle(s: Step): (w: World)
    ensures w.outbox == s.world.outbox
    ensures s.outcome.Pass? ==> w == s.world
  {
    match s.outcome
    case Pass => s.world
    case Fail(e) => World(s.world.log + [FailureLine(e)], s.world.outbox)
  }

  /** The catch block keeps every line the handler logged before it threw
      and adds the one failure line after them. */
  lemma CatchKeepsHandlerWork(s: Step)
    ensures |Settle(s).log| == |s.world.log| + (if s.outcome.Fail? then 1 else 0)
    ensures Settle(s).log[..|s.world.log|] == s.world.log
    ensures s.outcome.Fail? ==> Settle(s).log[|s.world.log|] == FailureLine(s.outcome.error)
  {
  }

  /** The JSON decoder: a notification, or the decoder's message. */
  type Decoder = string -> Result<SESNotification, string>

  /** Whether a record throws inside the loop body, in the world the loop
      has reached. */
  ghost predicate StepFails(handle: Handling, decode: Decoder, record: string, w: World) {
    decode(record).Failure? || handle(decode(record).value, w).outcome.Fail?
  }

  /** The records in order, each handled in the world the previous ones
      left. */
  function BatchEffect(handle: Handling, decode: Decoder, records: seq<string>, w: World): (after: World)
    ensures records == [] ==> after == w
    ensures |records| == 1 ==> after == RecordEffect(handle, decode, records[0], w)
    ensures WellBehaved(handle) ==> |w.log| <= |after.log| && after.log[..|w.log|] == w.log
    decreases |records|
  {
    if records == [] then w
    else RecordEffect(handle, decode, records[|records| - 1], BatchEffect(handle, decode, records[..|records| - 1], w))
  }

  /** A failing record does not stop the batch: two batches run back to
      back are the batch of their concatenation. */
  lemma {:induction false} BatchEffectAppend(handle: Handling, decode: Decoder, first: seq<string>, rest: seq<string>, w: World)
    ensures BatchEffect(handle, decode, first + rest, w)
         == BatchEffect(handle, decode, rest, BatchEffect(handle, decode, first, w))
    decreases |rest|
  {
    if rest == [] {
      assert first + rest == first;
    } else {
      var last := |rest| - 1;
      assert (first + rest)[..|first + rest| - 1] == first + rest[..last];
      assert (first + rest)[|first + rest| - 1] == rest[last];
      BatchEffectAppend(handle, decode, first, rest[..last], w);
    }
  }

  function CountFailureLines(lines: seq<string>): nat
    decreases |lines|
  {
    if lines == [] then 0
    else CountFailureLines(lines[..|lines| - 1]) + (if IsFailureLine(lines[|lines| - 1]) then 1 else 0)
  }

  /** The records of a batch that throw, each judged in the world the
      records before it left. */
  ghost function CountFailingRun(handle: Handling, decode: Decoder, records: seq<string>, w: World): nat
    decreases |records|
  {
    if records == [] then 0
    else
      var prefix := records[..|records| - 1];
      var last := if StepFails(handle, decode, records[|records| - 1], BatchEffect(handle, decode, prefix, w)) then 1 else 0;
      CountFailingRun(handle, decode, prefix, w) + last
  }

  /** Lines appended without a failure report leave the count alone. */
  lemma {:induction false} CountFailureLinesAppends(before: seq<string>, after: seq<string>)
    requires Appends(before, after)
    ensures CountFailureLines(after) == CountFailureLines(before)
    decreases |after|
  {
    if |after| > |before| {
      var shorter := after[..|after| - 1];
      assert shorter[..|before|] == before;
      assert Appends(before, shorter);
      CountFailureLinesAppends(before, shorter);
    } else {
      assert after == before;
    }
  }

  /** One record adds exactly one failure line when it throws, none
      otherwise. */
  lemma RecordFailureLines(handle: Handling, decode: Decoder, record: string, w: World)
    requires WellBehaved(handle)
    ensures CountFailureLines(RecordEffect(handle, decode, record, w).log)
         == CountFailureLines(w.log) + (if StepFails(handle, decode, record, w) then 1 else 0)
  {
    match decode(record)
    case Failure(message) =>
      var log := w.log + [FailureLine(DecodeFailed(message))];
      assert log[..|log| - 1] == w.log;
    case Success(n) =>
      var s := handle(n, w);
      assert Appends(w.log, s.world.log);
      CountFailureLinesAppends(w.log, s.world.log);
      match s.outcome
      case Pass =>
      case Fail(e) =>
        var log := s.world.log + [FailureLine(e)];
        assert log[..|log| - 1] == s.world.log;
  }

  /** The number of failure lines a batch adds is the number of records in
      it that throw. */
  lemma {:induction false} FailureLinesCountFailingRecords(handle: Handling, decode: Decoder, records: seq<string>, w: World)
    requires WellBehaved(handle)
    ensures CountFailureLines(BatchEffect(handle, decode, records, w).log)
         == CountFailureLines(w.log) + CountFailingRun(handle, decode, records, w)
    decreases |records|
  {
    if records != [] {
      var prefix := records[..|records| - 1];
      FailureLinesCountFailingRecords(handle, decode, prefix, w);
      RecordFailureLines(handle, decode, records[|records| - 1], BatchEffect(handle, decode, prefix, w));
    }
  }

  /** For either handler the consumer can hold, a batch adds one failure
      line per record that throws and no other. */
  lemma HandlerFailureLinesCountFailingRecords(h: SesHandler, decode: Decoder, records: seq<string>, w: World)
    ensures CountFailureLines(BatchEffect(HandlingOf(h), decode, records, w).log)
         == CountFailureLines(w.log) + CountFailingRun(HandlingOf(h), decode, records, w)
  {
    HandlersAreWellBehaved(h);
    FailureLinesCountFailingRecords(HandlingOf(h), decode, records, w);
  }

  /** The logging handler on one notification: its one line for a known
      type, nothing for another type, and the switch's exception for a
      missing type. */
  lemma LoggingHandling(l: LoggingSESNotificationHandler, n: SESNotification, w: World)
    ensures n.notificationType == Some("Bounce") ==>
      HandlingOf(Logging(l))(n, w) == Step(World(w.log + [BounceReceived(n.bounce)], w.outbox), Pass)
    ensures n.notificationType == Some("Delivery") ==>
      HandlingOf(Logging(l))(n, w) == Step(World(w.log + [DeliveryMade(n.delivery)], w.outbox), Pass)
    ensures n.notificationType.None? ==>
      HandlingOf(Logging(l))(n, w) == Step(w, Fail(NullPointer("notificationType")))
  {
  }

  /** The logging handler on a batch of a bounce, a malformed record, a
      delivery and a notification without a type: each record is handled
      in order, and the two that throw leave one failure line each in
      their place. */
  lemma LoggingBatchScenario(l: LoggingSESNotificationHandler, decode: Decoder,
                             r1: string, r2: string, r3: string, r4: string,
                             n1: SESNotification, n3: SESNotification, n4: SESNotification, error: string, w: World)
    requires decode(r1) == Success(n1) && n1.notificationType == Some("Bounce")
    requires decode(r2) == Failure(error)
    requires decode(r3) == Success(n3) && n3.notificationType == Some("Delivery")
    requires decode(r4) == Success(n4) && n4.notificationType.None?
    ensures BatchEffect(HandlingOf(Logging(l)), decode, [r1, r2, r3, r4], w)
         == World(w.log + [BounceReceived(n1.bounce), FailureLine(DecodeFailed(error)),
                           DeliveryMade(n3.delivery), FailureLine(NullPointer("notificationType"))], w.outbox)
  {
    var handle := HandlingOf(Logging(l));
    var w1 := World(w.log + [BounceReceived(n1.bounce)], w.outbox);
    var w2 := World(w1.log + [FailureLine(DecodeFailed(error))], w.outbox);
    var w3 := World(w2.log + [DeliveryMade(n3.delivery)], w.outbox);
    var w4 := World(w3.log + [FailureLine(NullPointer("notificationType"))], w.outbox);
    LoggingRecord(l, decode, r1, w);
    LoggingRecord(l, decode, r2, w1);
    LoggingRecord(l, decode, r3, w2);
    LoggingRecord(l, decode, r4, w3);
    FourSteps(handle, decode, r1, r2, r3, r4, w, w1, w2, w3, w4);
    AppendFour(w.log, BounceReceived(n1.bounce), FailureLine(DecodeFailed(error)),
               DeliveryMade(n3.delivery), FailureLine(NullPointer("notificationType")));
  }

  lemma AppendFour(s: seq<string>, a: string, b: string, c: string, d: string)
    ensures s + [a] + [b] + [c] + [d] == s + [a, b, c, d]
  {
  }

  /** One record through the logging handler: a record that does not
      decode logs the decoder's failure, a bounce or a delivery logs its
      line, and a notification without a type logs the switch's failure. */
  lemma LoggingRecord(l: LoggingSESNotificationHandler, decode: Decoder, r: string, w: World)
    ensures decode(r).Failure? ==>
      RecordEffect(HandlingOf(Logging(l)), decode, r, w) == World(w.log + [FailureLine(DecodeFailed(decode(r).error))], w.outbox)
    ensures decode(r).Success? && decode(r).value.notificationType == Some("Bounce") ==>
      RecordEffect(HandlingOf(Logging(l)), decode, r, w) == World(w.log + [BounceReceived(decode(r).value.bounce)], w.outbox)
    ensures decode(r).Success? && decode(r).value.notificationType == Some("Delivery") ==>
      RecordEffect(HandlingOf(Logging(l)), decode, r, w) == World(w.log + [DeliveryMade(decode(r).value.delivery)], w.outbox)
    ensures decode(r).Success? && decode(r).value.notificationType.None? ==>
      RecordEffect(HandlingOf(Logging(l)), decode, r, w) == World(w.log + [FailureLine(NullPointer("notificationType"))], w.outbox)
  {
    if decode(r).Success? {
      LoggingHandling(l, decode(r).value, w);
    }
  }

  /** Four records whose steps are known one by one make a batch whose
      effect is the last of them. */
  lemma FourSteps(handle: Handling, decode: Decoder, r1: string, r2: string, r3: string, r4: string,
                  w: World, w1: World, w2: World, w3: World, w4: World)
    requires RecordEffect(handle, decode, r1, w) == w1 && RecordEffect(handle, decode, r2, w1) == w2
    requires RecordEffect(handle, decode, r3, w2) == w3 && RecordEffect(handle, decode, r4, w3) == w4
    ensures BatchEffect(handle, decode, [r1, r2, r3, r4], w) == w4
  {
    BatchSteps(handle, decode, [r1, r2, r3, r4], w);
  }

  /** A four-record batch unrolled. */
  lemma BatchSteps(handle: Handling, decode: Decoder, records: seq<string>, w: World)
    requires |records| == 4
    ensures BatchEffect(handle, decode, records, w)
         == RecordEffect(handle, decode, records[3],
              RecordEffect(handle, decode, records[2],
                RecordEffect(handle, decode, records[1],
                  RecordEffect(handle, decode, records[0], w))))
  {
    var p0, p1, p2, p3 := records[..0], records[..1], records[..2], records[..3];
    assert p1[..0] == p0 && p2[..1] == p1 && p3[..2] == p2 && records[..3] == p3;
    assert BatchEffect(handle, decode, p1, w) == RecordEffect(handle, decode, records[0], w);
    assert BatchEffect(handle, decode, p2, w) == RecordEffect(handle, decode, records[1], BatchEffect(handle, decode, p1, w));
    assert BatchEffect(handle, decode, p3, w) == RecordEffect(handle, decode, records[2], BatchEffect(handle, decode, p2, w));
  }

  class SNSMessageHandler {
    /** Chosen once, when the function instance starts. */
    const sesHandler: SesHandler
    const mapper: Decoder

    constructor(sesHandler: SesHandler, mapper: Decoder)
      ensures this.sesHandler == sesHandler && this.mapper == mapper
    {
      this.sesHandler := sesHandler;
      this.mapper := mapper;
    }

    /** The no-argument constructor: it fails, and the function instance
        with it, exactly when the handler cannot be loaded. */
    static method FromEnvironment(env: Environment, registry: Registry, provider: Provider,
                                  evaluate: Evaluator, mapper: Decoder)
      returns (r: Result<SNSMessageHandler, Failure>)
      ensures r.Success? <==> ResolveHandler(env, registry).Success?
      ensures r.Failure? ==> r.error == ResolveHandler(env, registry).error
      ensures r.Success? ==>
        && fresh(r.value) && r.value.mapper == mapper
        && Builds(r.value.sesHandler, ResolveHandler(env, registry).value, provider, evaluate)
        && fresh(Mutables(r.value.sesHandler)) && OutboxOf(r.value.sesHandler) == []
    {
      var loaded := LoadHandlerFromEnv(env, registry, provider, evaluate);
      if loaded.Failure? {
        return Failure(loaded.error);
      }
      var handler := new SNSMessageHandler(loaded.value, mapper);
      return Success(handler);
    }

    /** The body of the loop: one record, whose exception, if any, is
        logged and swallowed. */
    method HandleRecord(record: string, context: Context)
      modifies context, Mutables(sesHandler)
      ensures World(context.log, OutboxOf(sesHandler))
           == RecordEffect(HandlingOf(sesHandler), mapper, record, World(old(context.log), old(OutboxOf(sesHandler))))
    {
      var decoded := mapper(record);
      if decoded.Failure? {
        context.Log(FailureLine(DecodeFailed(decoded.error)));
      } else {
        HandleDecoded(decoded.value, context);
      }
    }

    /** A decoded notification handed to the handler, inside the try. */
    method HandleDecoded(n: SESNotification, context: Context)
      modifies context, Mutables(sesHandler)
      ensures World(context.log, OutboxOf(sesHandler))
           == Settle(HandlingOf(sesHandler)(n, World(old(context.log), old(OutboxOf(sesHandler)))))
    {
      var o := HandleNotification(sesHandler, n, context);
      if o.Fail? {
        context.Log(FailureLine(o.error));
      }
    }

    /** `handleRequest`: every record in order; it always returns. */
    method HandleRequest(records: seq<string>, context: Context)
      modifies context, Mutables(sesHandler)
      ensures World(context.log, OutboxOf(sesHandler))
           == BatchEffect(HandlingOf(sesHandler), mapper, records, World(old(context.log), old(OutboxOf(sesHandler))))
    {
      ghost var start := World(context.log, OutboxOf(sesHandler));
      var i := 0;
      while i < |records|
        invariant 0 <= i <= |records|
        invariant World(context.log, OutboxOf(sesHandler)) == BatchEffect(HandlingOf(sesHandler), mapper, records[..i], start)
      {
        HandleRecord(records[i], context);
        assert records[..i + 1][..i] == records[..i];
        i := i + 1;
      }
      assert records[..|records|] == records;
    }
  }
}
