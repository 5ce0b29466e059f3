/** The Lambda runtime's invocation context, reduced to what the handlers
    use of it: the logger, as the sequence of lines logged so far. */
module Lambda {

  class Context {
    var log: seq<string>

    constructor()
      ensures log == []
    {
      log := [];
    }

    /** `context.getLogger().log(line)`. */
    method Log(line: string)
      modifies this
      ensures log == old(log) + [line]
    {
      log := log + [line];
    }
  }
}
