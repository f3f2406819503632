/** Duplicate suppression for outgoing mail: a process-local map from an
    email key to the time (milliseconds) it was last sent, a five-minute
    cooldown, pruning of entries older than a day, and the gate both send
    functions pass through before the provider is called. The provider's
    reply and the clock are inputs. */
module EmailDedupe {

  import opened Wrappers
  import opened Text

  datatype EmailType = FormSubmission | PaymentConfirmation

  function TypeName(t: EmailType): string
  {
    match t
    case FormSubmission => "form_submission"
    case PaymentConfirmation => "payment_confirmation"
  }

  /** `createEmailKey`: type, recipient and the subject stripped of every
      character that is neither a word character nor whitespace, separated
      by colons, with the unique id appended only when it is non-empty. */
  function EmailKey(to: string, subject: string, t: EmailType, uniqueId: Option<string>): (k: string)
    ensures StartsWith(k, TypeName(t) + ":" + to + ":")
    ensures uniqueId.Some? && uniqueId.value != [] ==>
      |k| > |uniqueId.value| && k[|k| - |uniqueId.value| - 1..] == ":" + uniqueId.value
  {
    var base := TypeName(t) + ":" + to + ":" + StripNonWord(subject);
    if uniqueId.Some? && uniqueId.value != [] then base + ":" + uniqueId.value else base
  }

  /** Subjects that differ only in punctuation or symbols share a key: the
      key ignores them entirely, wherever they occur. */
  lemma EmailKeyIgnoresPunctuation(to: string, a: string, b: string, t: EmailType, uniqueId: Option<string>)
    requires StripNonWord(a) == StripNonWord(b)
    ensures EmailKey(to, a, t, uniqueId) == EmailKey(to, b, t, uniqueId)
  {
  }

  /** Normalising a subject before keying changes nothing: a subject's
      stripped form has the same key as the subject itself. */
  lemma EmailKeyNormalised(to: string, subject: string, t: EmailType, uniqueId: Option<string>)
    ensures EmailKey(to, StripNonWord(subject), t, uniqueId) == EmailKey(to, subject, t, uniqueId)
  {
    StripNonWordIdempotent(subject);
  }

  /** With a non-empty unique id the key is the id-less key extended by it,
      so two submissions' mails never share a key. */
  lemma EmailKeyUniqueId(to: string, subject: string, t: EmailType, a: string, b: string)
    requires a != [] && b != []
    ensures EmailKey(to, subject, t, Some(a)) == EmailKey(to, subject, t, None) + ":" + a
    ensures EmailKey(to, subject, t, Some(a)) == EmailKey(to, subject, t, Some(b)) <==> a == b
  {
    var base := EmailKey(to, subject, t, None);
    if EmailKey(to, subject, t, Some(a)) == EmailKey(to, subject, t, Some(b)) {
      assert (base + ":" + a)[|base| + 1..] == a;
      assert (base + ":" + b)[|base| + 1..] == b;
    }
  }

  /** The in-memory `emailSentStore`. */
  type SentStore = map<string, int>

  /** Default cooldown of `isDuplicateEmail`: 5 minutes in milliseconds. */
  const CooldownMs: int := 5 * 60 * 1000
  /** Age after which `markEmailSent` drops an entry: 24 hours in milliseconds. */
  const DayMs: int := 24 * 60 * 60 * 1000

  /** `isDuplicateEmail(key)` at time `now`. A stored 0 counts as absent,
      because the code tests the timestamp for truthiness. */
  predicate IsDuplicate(store: SentStore, key: string, now: int)
    ensures key !in store ==> !IsDuplicate(store, key, now)
    ensures IsDuplicate(store, key, now) ==> store[key] != 0 && now < store[key] + CooldownMs
    ensures key in store && store[key] != 0 && now < store[key] + CooldownMs ==> IsDuplicate(store, key, now)
  {
    key in store && store[key] != 0 && now - store[key] < CooldownMs
  }

  /** `markEmailSent(key)` at time `now`: the key is stamped with `now`, then
      every entry older than a day is removed. */
  function MarkSent(store: SentStore, key: string, now: int): (r: SentStore)
    ensures key in r && r[key] == now
    ensures forall k :: k in r <==> (k == key || (k in store && store[k] >= now - DayMs))
    ensures forall k :: k in r && k != key ==> r[k] == store[k]
  {
    var stamped := store[key := now];
    map k | k in stamped && stamped[k] >= now - DayMs :: stamped[k]
  }

  /** After a mark, the store holds only entries of the last day. */
  lemma MarkSentPrunes(store: SentStore, key: string, now: int)
    ensures forall k :: k in MarkSent(store, key, now) ==> MarkSent(store, key, now)[k] >= now - DayMs
  {
  }

  /** A key just marked at `t1` is a duplicate at `t2` exactly when fewer
      than five minutes have passed (a mark at time 0 does not count). */
  lemma MarkThenDuplicate(store: SentStore, key: string, t1: int, t2: int)
    requires t1 != 0
    ensures IsDuplicate(MarkSent(store, key, t1), key, t2) <==> t2 - t1 < CooldownMs
  {
  }

  /** Marking one key does not change whether any other key is a duplicate
      at the same time or later: pruning removes only entries that are
      past their cooldown anyway. */
  lemma MarkSentLeavesOthers(store: SentStore, key: string, other: string, t1: int, t2: int)
    requires other != key && t1 <= t2
    ensures IsDuplicate(MarkSent(store, key, t1), other, t2) <==> IsDuplicate(store, other, t2)
  {
  }

  // ---------------------------------------------------------------- the send gate

  /** The two addresses the mail module reads from the environment when it
      loads, `FROM_EMAIL` and `ADMIN_EMAIL`; `None` when a variable is
      unset. */
  datatype Env = Env(fromEmail: Option<string>, adminEmail: Option<string>)

  /** `process.env.X || fallback`: an unset or empty variable falls back. */
  function OrDefault(v: Option<string>, fallback: string): (r: string)
    ensures v.Some? && v.value != [] ==> r == v.value
    ensures v.None? || v.value == [] ==> r == fallback
  {
    if v.Some? && v.value != [] then v.value else fallback
  }

  /** Sender when `FROM_EMAIL` is not configured. */
  const DefaultFromEmail := "noreply@ai-chatflows.com"

  /** `FROM_EMAIL`: the sender of every mail. */
  function FromEmail(env: Env): string
  {
    OrDefault(env.fromEmail, DefaultFromEmail)
  }

  datatype EmailTemplate = EmailTemplate(to: seq<string>, subject: string, html: string)

  /** `template.to[0]`: an empty recipient list yields `undefined`, which the
      key's template literal writes as the text "undefined". */
  function FirstRecipient(to: seq<string>): string
  {
    if |to| > 0 then to[0] else "undefined"
  }

  datatype SendOptions = SendOptions(preventDuplicates: bool, emailType: Option<EmailType>, uniqueId: Option<string>)

  /** The store is consulted only when duplicate prevention is on and an
      email type is given. */
  predicate DedupeActive(options: Option<SendOptions>)
  {
    options.Some? && options.value.preventDuplicates && options.value.emailType.Some?
  }

  /** The key a send is checked against. */
  function KeyFor(template: EmailTemplate, options: Option<SendOptions>): string
    requires DedupeActive(options)
  {
    EmailKey(FirstRecipient(template.to), template.subject, options.value.emailType.value, options.value.uniqueId)
  }

  datatype Attachment = Attachment(filename: string, url: string)

  /** The message handed to the provider; an attachment's content is its URL. */
  datatype Outgoing = Outgoing(from: string, to: seq<string>, subject: string, html: string, attachments: seq<Attachment>)

  /** The provider's answer to one send. */
  datatype ProviderReply = Delivered(id: string) | ProviderError(message: string)

  /** What a send call returns: `{duplicate, skipped}`, the provider's data,
      or the thrown "Failed to send email: …". */
  datatype SendOutcome = Skipped | Sent(id: string) | SendFailed(error: string)

  datatype SendResult = SendResult(outcome: SendOutcome, store: SentStore, request: Option<Outgoing>)

  /** `sendEmailWithAttachments`. A duplicate is skipped without touching the
      store or the provider. Otherwise the key (if any) is marked BEFORE the
      provider is called, the message goes out with the attachments (none
      when the list is empty), and the provider's error is rethrown. */
  function SendEmailWithAttachments(env: Env, store: SentStore, template: EmailTemplate, attachments: seq<Attachment>,
                                    options: Option<SendOptions>, now: int, reply: ProviderReply): (r: SendResult)
    ensures r.outcome.Skipped? <==> DedupeActive(options) && IsDuplicate(store, KeyFor(template, options), now)
    ensures r.outcome.Skipped? ==> r.store == store && r.request.None?
    ensures !r.outcome.Skipped? ==>
              && r.request == Some(Outgoing(FromEmail(env), template.to, template.subject, template.html, attachments))
              && r.store == (if DedupeActive(options) then MarkSent(store, KeyFor(template, options), now) else store)
              && (r.outcome.Sent? <==> reply.Delivered?)
              && (r.outcome.Sent? ==> r.outcome.id == reply.id)
              && (r.outcome.SendFailed? ==> r.outcome.error == "Failed to send email: " + reply.message)
    ensures !DedupeActive(options) ==> r.store == store
  {
    if DedupeActive(options) && IsDuplicate(store, KeyFor(template, options), now) then
      SendResult(Skipped, store, None)
    else
      var store' := if DedupeActive(options) then MarkSent(store, KeyFor(template, options), now) else store;
      var request := Outgoing(FromEmail(env), template.to, template.subject, template.html, attachments);
      match reply
      case Delivered(id) => SendResult(Sent(id), store', Some(request))
      case ProviderError(message) => SendResult(SendFailed("Failed to send email: " + message), store', Some(request))
  }

  /** `sendEmail`: the same gate, and a message without attachments. */
  function SendEmail(env: Env, store: SentStore, template: EmailTemplate, options: Option<SendOptions>, now: int, reply: ProviderReply): (r: SendResult)
    ensures r.request.Some? ==> r.request.value.attachments == []
  {
    SendEmailWithAttachments(env, store, template, [], options, now, reply)
  }

  /** Two sends of the same mail with duplicate prevention on, less than
      five minutes apart: the provider is called once, and the second call
      reports a skipped duplicate, whatever the first call's outcome. */
  lemma SecondSendWithinCooldownSkipped(env: Env, store: SentStore, template: EmailTemplate, options: Option<SendOptions>,
                                        t1: int, t2: int, reply1: ProviderReply, reply2: ProviderReply)
    requires DedupeActive(options) && t1 != 0 && t2 - t1 < CooldownMs
    requires !IsDuplicate(store, KeyFor(template, options), t1)
    ensures var first := SendEmail(env, store, template, options, t1, reply1);
      && first.request.Some?
      && var second := SendEmail(env, first.store, template, options, t2, reply2);
      && second.outcome.Skipped? && second.request.None?
  {
    MarkThenDuplicate(store, KeyFor(template, options), t1, t2);
  }

  /** The key is marked even when the provider fails, so retrying within the
      cooldown is suppressed. */
  lemma FailedSendSuppressesRetry(env: Env, store: SentStore, template: EmailTemplate, options: Option<SendOptions>,
                                  t1: int, t2: int, message: string, reply2: ProviderReply)
    requires DedupeActive(options) && t1 != 0 && t2 - t1 < CooldownMs
    requires !IsDuplicate(store, KeyFor(template, options), t1)
    ensures SendEmail(env, store, template, options, t1, ProviderError(message)).outcome.SendFailed?
    ensures SendEmail(env, SendEmail(env, store, template, options, t1, ProviderError(message)).store,
                      template, options, t2, reply2).outcome.Skipped?
  {
    MarkThenDuplicate(store, KeyFor(template, options), t1, t2);
  }

  /** Once the cooldown has passed, the same mail goes to the provider again. */
  lemma SendAfterCooldownGoesOut(env: Env, store: SentStore, template: EmailTemplate, options: Option<SendOptions>,
                                 t1: int, t2: int, reply1: ProviderReply, reply2: ProviderReply)
    requires DedupeActive(options) && t1 != 0 && t2 - t1 >= CooldownMs
    ensures var first := SendEmail(env, store, template, options, t1, reply1);
      !first.outcome.Skipped? ==> SendEmail(env, first.store, template, options, t2, reply2).request.Some?
  {
    MarkThenDuplicate(store, KeyFor(template, options), t1, t2);
  }

  /** Without duplicate prevention every call reaches the provider. */
  lemma WithoutDedupeAlwaysSends(env: Env, store: SentStore, template: EmailTemplate, options: Option<SendOptions>, now: int, reply: ProviderReply)
    requires !DedupeActive(options)
    ensures SendEmail(env, store, template, options, now, reply).request.Some?
  {
  }
}
