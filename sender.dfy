/** The email sender: one `send` call hands one email to the provider,
    which accepts it or throws. */
module Sender {
  import opened Wrappers
  import opened Errors

  datatype SentEmail = SentEmail(from: string, to: string, subject: string, htmlBody: string, textBody: string)

  /** The provider's answer to one request: `None` when it accepts the
      email, `Some(message)` when its client throws with that message. */
  type Provider = SentEmail -> Option<string>

  class EmailSender {
    /** Every email the provider has accepted, in order. */
    var outbox: seq<SentEmail>
    const provider: Provider

    constructor(provider: Provider)
      ensures outbox == [] && this.provider == provider
    {
      outbox := [];
      this.provider := provider;
    }

    /** An accepted email is appended to the outbox; a refused one leaves it
        as it was and the provider's exception propagates. */
    method Send(from: string, to: string, subject: string, htmlBody: string, textBody: string)
      returns (o: Outcome<Failure>)
      modifies this
      ensures var email := SentEmail(from, to, subject, htmlBody, textBody);
        && (provider(email).None? ==> o == Pass && outbox == old(outbox) + [email])
        && (provider(email).Some? ==> o == Fail(SendFailed(provider(email).value)) && outbox == old(outbox))
    {
      var email := SentEmail(from, to, subject, htmlBody, textBody);
      match provider(email)
      case None =>
        outbox := outbox + [email];
        o := Pass;
      case Some(message) =>
        o := Fail(SendFailed(message));
    }
  }
}
