/** The rendering service: three templates evaluated in turn against one
    context into a subject, an HTML body and a text body. */
module Rendering {
  import opened Wrappers
  import opened Errors
  import opened TemplateContext

  /** A compiled template: one loaded by name from the classpath (the body
      templates), or one whose source is the name itself (the subjects). */
  datatype Template = FileTemplate(path: string) | StringTemplate(source: string)

  /** How evaluating a template can fail: the writer's `IOException`, or a
      runtime exception of the template engine with its message. */
  datatype TemplateError = WriterIOError | EngineError(message: string)

  /** The template engine's `evaluate`, as text written to a fresh writer.
      The engine itself is not part of this model. */
  type Evaluator = (Template, Value) -> Result<string, TemplateError>

  datatype RenderedEmail = RenderedEmail(subject: string, htmlBody: string, textBody: string)

  /** One template into a string. An `IOException` is rethrown as
      "Rendering template failed"; an engine exception passes unchanged. */
  function RenderTemplate(evaluate: Evaluator, template: Template, context: Value): (r: Result<string, Failure>)
    ensures evaluate(template, context).Success? <==> r.Success?
    ensures r.Success? ==> r.value == evaluate(template, context).value
    ensures evaluate(template, context) == Failure(WriterIOError) ==>
      r == Failure(RenderingFailed) && Message(r.error) == "Rendering template failed"
    ensures evaluate(template, context).Failure? && evaluate(template, context).error.EngineError? ==>
      r == Failure(TemplateFailed(evaluate(template, context).error.message))
  {
    match evaluate(template, context)
    case Success(text) => Success(text)
    case Failure(WriterIOError) => Failure(RenderingFailed)
    case Failure(EngineError(message)) => Failure(TemplateFailed(message))
  }

  /** The three renders, subject first, then HTML, then text. The email is
      produced only when all three succeed; otherwise the first failure is
      what the caller sees. */
  function GenerateEmail(evaluate: Evaluator, subjectTemplate: Template, htmlBodyTemplate: Template,
                         textBodyTemplate: Template, context: Value): (r: Result<RenderedEmail, Failure>)
    ensures r.Success? <==>
      && RenderTemplate(evaluate, subjectTemplate, context).Success?
      && RenderTemplate(evaluate, htmlBodyTemplate, context).Success?
      && RenderTemplate(evaluate, textBodyTemplate, context).Success?
    ensures r.Success? ==>
      && r.value.subject == RenderTemplate(evaluate, subjectTemplate, context).value
      && r.value.htmlBody == RenderTemplate(evaluate, htmlBodyTemplate, context).value
      && r.value.textBody == RenderTemplate(evaluate, textBodyTemplate, context).value
    ensures RenderTemplate(evaluate, subjectTemplate, context).Failure? ==>
      r.Failure? && r.error == RenderTemplate(evaluate, subjectTemplate, context).error
  {
    var subject :- RenderTemplate(evaluate, subjectTemplate, context);
    var html :- RenderTemplate(evaluate, htmlBodyTemplate, context);
    var text :- RenderTemplate(evaluate, textBodyTemplate, context);
    Success(RenderedEmail(subject, html, text))
  }

  /** A writer failure hides which template failed: any two renders that
      fail on the writer report the same message, whatever the templates
      and contexts. */
  lemma WriterFailuresLookAlike(evaluate: Evaluator, t1: Template, c1: Value, t2: Template, c2: Value)
    requires evaluate(t1, c1) == Failure(WriterIOError) && evaluate(t2, c2) == Failure(WriterIOError)
    ensures RenderTemplate(evaluate, t1, c1).Failure? && RenderTemplate(evaluate, t2, c2).Failure?
    ensures Message(RenderTemplate(evaluate, t1, c1).error) == Message(RenderTemplate(evaluate, t2, c2).error)
  {
  }

  /** An engine exception reaches the caller with the engine's own message,
      so renders that fail with different engine messages report
      different messages. */
  lemma EngineMessageReachesCaller(evaluate: Evaluator, t: Template, c: Value, message: string)
    requires evaluate(t, c) == Failure(EngineError(message))
    ensures RenderTemplate(evaluate, t, c).Failure?
    ensures Message(RenderTemplate(evaluate, t, c).error) == message
  {
  }

  /** The templates the engine is asked to evaluate, in order: evaluation
      stops at the first one that fails. */
  ghost function Evaluated(evaluate: Evaluator, subjectTemplate: Template, htmlBodyTemplate: Template,
                           textBodyTemplate: Template, context: Value): seq<Template>
  {
    if evaluate(subjectTemplate, context).Failure? then [subjectTemplate]
    else if evaluate(htmlBodyTemplate, context).Failure? then [subjectTemplate, htmlBodyTemplate]
    else [subjectTemplate, htmlBodyTemplate, textBodyTemplate]
  }

  /** The renders happen in order and stop early: what is evaluated is a
      prefix of subject, HTML, text; the email is produced exactly when all
      three were evaluated; and on failure the last template evaluated is
      the one that failed, its error is the result, and every earlier one
      succeeded. */
  lemma GenerateEmailStopsAtFirstFailure(evaluate: Evaluator, subjectTemplate: Template, htmlBodyTemplate: Template,
                                         textBodyTemplate: Template, context: Value)
    ensures var order := [subjectTemplate, htmlBodyTemplate, textBodyTemplate];
      var done := Evaluated(evaluate, subjectTemplate, htmlBodyTemplate, textBodyTemplate, context);
      var r := GenerateEmail(evaluate, subjectTemplate, htmlBodyTemplate, textBodyTemplate, context);
      && 1 <= |done| <= 3 && done == order[..|done|]
      && (r.Success? <==> |done| == 3 && evaluate(done[2], context).Success?)
      && (r.Failure? ==>
            && RenderTemplate(evaluate, done[|done| - 1], context).Failure?
            && r.error == RenderTemplate(evaluate, done[|done| - 1], context).error
            && forall k :: 0 <= k < |done| - 1 ==> evaluate(done[k], context).Success?)
  {
  }
}
