/** The exceptions that reach the batch consumer's catch block, and the text
    its `getMessage()` returns. */
module Errors {

  datatype Failure =
      /** NullPointerException on dereferencing the named value. */
    | NullPointer(what: string)
      /** The JSON decoder's exception, with its message. */
    | DecodeFailed(message: string)
      /** RuntimeException("Rendering template failed") wrapping an IOException. */
    | RenderingFailed
      /** A runtime exception thrown by the template engine itself. */
    | TemplateFailed(message: string)
      /** A runtime exception thrown by the email provider's client. */
    | SendFailed(message: string)
      /** IllegalStateException from the required environment lookup. */
    | MissingEnvVar(key: string)
      /** ClassNotFoundException from resolving a handler class name. */
    | ClassNotFound(className: string)
      /** The reflective no-argument construction failed. */
    | ConstructorFailed(message: string)
      /** IllegalArgumentException: the instance is not a notification handler. */
    | NotAHandler(className: string)
      /** RuntimeException("Failed to load handler class: " + name, cause). */
    | LoadFailed(className: string, cause: Failure)

  /** `getMessage()` of the exception. The JVM's own text for a
      NullPointerException is not modelled; a short description stands in. */
  function Message(f: Failure): string {
    match f
    case NullPointer(what) => what + " is null"
    case DecodeFailed(m) => m
    case RenderingFailed => "Rendering template failed"
    case TemplateFailed(m) => m
    case SendFailed(m) => m
    case MissingEnvVar(key) => "Required environment variable " + key
    case ClassNotFound(name) => name
    case ConstructorFailed(m) => m
    case NotAHandler(name) => "Class does not implement SESNotificationHandler: " + name
    case LoadFailed(name, _) => "Failed to load handler class: " + name
  }

  /** A configuration failure names its cause: the variable or class can be
      read back off the end of the message, after a prefix fixed per kind. */
  lemma MessageNamesCause(f: Failure)
    ensures f.MissingEnvVar? ==> Message(f)[|Message(f)| - |f.key|..] == f.key
    ensures f.ClassNotFound? || f.NotAHandler? || f.LoadFailed? ==>
      |f.className| <= |Message(f)| && Message(f)[|Message(f)| - |f.className|..] == f.className
    ensures f.MissingEnvVar? ==> Message(f)[..|Message(f)| - |f.key|] == "Required environment variable "
    ensures f.NotAHandler? ==> Message(f)[..|Message(f)| - |f.className|] == "Class does not implement SESNotificationHandler: "
    ensures f.LoadFailed? ==> Message(f)[..|Message(f)| - |f.className|] == "Failed to load handler class: "
  {
  }

  /** Two failures of one configuration kind with the same message have the
      same cause, so the log line identifies the variable or class. */
  lemma {:induction false} MessageIdentifiesCause(f: Failure, g: Failure)
    requires (f.MissingEnvVar? && g.MissingEnvVar?) || (f.NotAHandler? && g.NotAHandler?)
      || (f.LoadFailed? && g.LoadFailed?) || (f.ClassNotFound? && g.ClassNotFound?)
    requires Message(f) == Message(g)
    ensures f.MissingEnvVar? ==> f.key == g.key
    ensures !f.MissingEnvVar? ==> f.className == g.className
  {
    MessageNamesCause(f);
    MessageNamesCause(g);
  }
}
