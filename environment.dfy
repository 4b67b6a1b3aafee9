/**
 * The process-wide settings the mailer reads (the I18n locale and the "allow incoming
 * email" configuration flag) and the two helpers that set one of them for the duration
 * of a block and then put the old value back.
 */
module Environment {
  import opened Wrappers
  import opened Threading

  /** A snapshot of the settings. */
  datatype Settings = Settings(locale: string, allowIncomingEmail: bool)

  /** How a block ended: normally with a value, or by raising. */
  datatype Outcome<T> = Returned(value: T) | Raised

  /** What running a block does: the settings it leaves behind and how it ends. */
  datatype BlockRun<T> = BlockRun(after: Settings, outcome: Outcome<T>)

  class Environment {
    var locale: string
    var allowIncomingEmail: bool

    function Current(): (s: Settings)
      reads this
    {
      Settings(locale, allowIncomingEmail)
    }

    constructor (locale: string, allowIncomingEmail: bool)
      ensures Current() == Settings(locale, allowIncomingEmail)
    {
      this.locale := locale;
      this.allowIncomingEmail := allowIncomingEmail;
    }

    /** Runs a block, which sees the current settings and may change them. */
    method Yield<T>(block: Settings -> BlockRun<T>) returns (outcome: Outcome<T>)
      modifies this
      ensures Current() == block(old(Current())).after
      ensures outcome == block(old(Current())).outcome
    {
      var run := block(Current());
      locale, allowIncomingEmail := run.after.locale, run.after.allowIncomingEmail;
      outcome := run.outcome;
    }

    /**
     * Sets the locale, runs the block, and sets the old locale back. The restore is not
     * protected: when the block raises, the settings stay as the block left them. On a
     * normal return the result is the old locale, the value of the last assignment.
     */
    method WithLocale<T>(language: string, block: Settings -> BlockRun<T>) returns (outcome: Outcome<string>)
      modifies this
      ensures var run := block(old(Current()).(locale := language));
              if run.outcome.Raised? then
                outcome == Raised && Current() == run.after
              else
                outcome == Returned(old(locale)) &&
                Current() == Settings(old(locale), run.after.allowIncomingEmail)
    {
      var oldLocale := locale;
      locale := language;
      var blockOutcome := Yield(block);
      if blockOutcome.Raised? {
        outcome := Raised;
        return;
      }
      locale := oldLocale;
      outcome := Returned(oldLocale);
    }

    /**
     * Sets the incoming-email flag (on unless told otherwise), runs the block, and sets
     * the old flag back whether or not the block raises. The result is the block's own
     * outcome.
     */
    method AllowIncomingMail<T>(block: Settings -> BlockRun<T>, really: bool := true) returns (outcome: Outcome<T>)
      modifies this
      ensures var run := block(old(Current()).(allowIncomingEmail := really));
              outcome == run.outcome &&
              Current() == Settings(run.after.locale, old(allowIncomingEmail))
    {
      var oldValue := allowIncomingEmail;
      allowIncomingEmail := really;
      outcome := Yield(block);
      allowIncomingEmail := oldValue;
    }
  }

  /**
   * A conversation notification composed inside `AllowIncomingMail(really)` uses `really`
   * as the flag, and the flag and locale are as before afterwards.
   */
  method NotifyConversationWithIncomingMail(
    env: Environment, really: bool, p: Project, d: Discussion, senderName: string, domain: string)
    returns (outcome: Outcome<Headers>)
    requires WellFormed(d) && d.kind == Conversation
    modifies env
    ensures outcome == Returned(Compose(p, d, senderName, domain, really))
    ensures env.Current() == old(env.Current())
  {
    outcome := env.AllowIncomingMail(
      (s: Settings) => BlockRun(s, Returned(Compose(p, d, senderName, domain, s.allowIncomingEmail))),
      really);
  }

  /**
   * "should set Reply-to": inside `AllowIncomingMail` with its default flag, the
   * conversation notification is from `senderName` at the conversation's routing
   * address, and Reply-To is that address alone.
   */
  method SetsReplyToExample(env: Environment, p: Project, d: Discussion, senderName: string, domain: string)
    returns (h: Headers)
    requires WellFormed(d) && d.kind == Conversation
    modifies env
    ensures h.replyTo == Some([ConversationAddress(p.permalink, d.id, domain)])
    ensures Decoded(h.from) == senderName + " <" + ConversationAddress(p.permalink, d.id, domain) + ">"
    ensures env.Current() == old(env.Current())
  {
    var outcome := env.AllowIncomingMail(
      (s: Settings) => BlockRun(s, Returned(Compose(p, d, senderName, domain, s.allowIncomingEmail))));
    h := outcome.value;
  }

  /**
   * "should not set Reply-to for no-reply": inside `AllowIncomingMail(false)` the
   * notification comes from the no-reply address and has no Reply-To.
   */
  method NoReplyExample(env: Environment, p: Project, d: Discussion, senderName: string, domain: string)
    returns (h: Headers)
    requires WellFormed(d) && d.kind == Conversation
    modifies env
    ensures FromAddresses(h) == [NoReplyAddress(domain)] && h.replyTo == None
    ensures env.Current() == old(env.Current())
  {
    var outcome := NotifyConversationWithIncomingMail(env, false, p, d, senderName, domain);
    h := outcome.value;
  }
}
