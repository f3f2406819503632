/** The Stripe webhook: request checks, event dispatch, and the payment
    reconciler over the two submission tables. A completed checkout marks
    the submission named by its client reference as paid, trying the
    enhanced table first and the legacy table only when that fails, then
    sends the two receipts with duplicate prevention; every other event is
    acknowledged without change.

    A table is a map from submission id to row. The legacy table's calls
    are modelled on it: an update of an id the table does not hold fails
    (the update's `.single()` finds no row), and the lookup by session id
    succeeds exactly when one row carries that session id. The enhanced
    table's update and lookup helpers are not part of this model: what they
    did in a delivery is an input, `EnhancedHelpers`. */
module PaymentWebhook {

  import opened Wrappers
  import opened EmailDedupe
  import opened EmailTemplates
  import opened Effects

  /** The columns of a submission row the webhook reads or writes. `name` is
      the row's `business_name` whenever the row has that key, whichever
      table it came from, and its `name` otherwise. */
  datatype Row = Row(email: string, name: string, paymentStatus: PaymentStatus, stripeSessionId: Option<string>)

  type Table = map<string, Row>

  datatype Stores = Stores(enhanced: Table, legacy: Table)

  /** The verified event, reduced to what the handler reads. */
  datatype Event =
    | CheckoutCompleted(sessionId: string, reference: Option<string>)
    | CheckoutExpired(reference: Option<string>)
    | PaymentIntentFailed(intentId: string)
    | OtherEvent(eventType: string)

  /** The HTTP method, the `stripe-signature` header, and what
      `constructEvent` makes of the body (`None` when it throws). */
  datatype WebhookRequest = WebhookRequest(verb: string, signature: Option<string>, verified: Option<Event>)

  /** The clock, the provider's replies to the two receipts, their HTML,
      and the mail module's environment. */
  datatype WebhookServices = WebhookServices(
    now: int, clientReply: ProviderReply, adminReply: ProviderReply, clientBody: string, adminBody: string, env: Env)

  /** The status and the JSON body's `error` (`{received: true}` has none). */
  datatype Reply = Reply(status: nat, error: Option<string>)

  const Received := Reply(200, None)
  const NotAllowed := Reply(405, Some("Method not allowed"))
  const MissingSignature := Reply(400, Some("Missing Stripe signature"))
  const WebhookError := Reply(400, Some("Webhook error"))
  const NotFound := Reply(400, Some("Submission not found"))

  datatype WebhookOutcome = WebhookOutcome(reply: Reply, stores: Stores, mails: seq<Outgoing>, sent: SentStore)

  /** The update `{payment_status: 'completed', stripe_session_id}` of one row. */
  function MarkPaid(t: Table, id: string, sessionId: string): (r: Table)
    requires id in t
    ensures r.Keys == t.Keys
    ensures r[id] == t[id].(paymentStatus := Completed, stripeSessionId := Some(sessionId))
    ensures forall k :: k in t && k != id ==> r[k] == t[k]
  {
    t[id := t[id].(paymentStatus := Completed, stripeSessionId := Some(sessionId))]
  }

  /** The ids of the rows carrying a session id. */
  function SessionRows(t: Table, sessionId: string): (ids: set<string>)
    ensures ids <= t.Keys
    ensures forall k :: k in ids ==> t[k].stripeSessionId == Some(sessionId)
    ensures forall k :: k in t && k !in ids ==> t[k].stripeSessionId != Some(sessionId)
  {
    set k | k in t && t[k].stripeSessionId == Some(sessionId)
  }

  /** The result of trying one table: the row read back (`None` when the
      update or the lookup threw) and the table afterwards. */
  datatype Attempt = Attempt(row: Option<Row>, table: Table)

  /** Update, then look up by session id. An update that succeeds stays
      applied even when the lookup then throws. */
  function UpdateAndGet(t: Table, id: string, sessionId: string): (a: Attempt)
    ensures id !in t ==> a == Attempt(None, t)
    ensures id in t ==> a.table == MarkPaid(t, id, sessionId)
    ensures a.row.Some? ==> id in t && a.row.value == a.table[id]
    ensures a.row.Some? <==> id in t && |SessionRows(MarkPaid(t, id, sessionId), sessionId)| == 1
  {
    if id !in t then Attempt(None, t)
    else
      var t' := MarkPaid(t, id, sessionId);
      if |SessionRows(t', sessionId)| == 1 then Attempt(Some(t'[id]), t') else Attempt(None, t')
  }

  /** What the enhanced table's update and lookup did in one delivery: one
      of them threw, or the lookup resolved to a row or to null; with the
      enhanced table as they left it either way. */
  datatype EnhancedReply = Threw(table: Table) | Resolved(row: Option<Row>, table: Table)

  /** The enhanced helpers, as a function of the enhanced table, the
      submission id and the session id. */
  type EnhancedHelpers = (Table, string, string) -> EnhancedReply

  /** The enhanced helpers as they would be if they behaved like the legacy
      ones: an update or a lookup that finds no row throws. */
  function SingleRowHelpers(t: Table, id: string, sessionId: string): (e: EnhancedReply)
    ensures id !in t ==> e == Threw(t)
    ensures id in t ==> e.table == MarkPaid(t, id, sessionId)
    ensures e.Resolved? ==> id in t && e.row == Some(e.table[id])
    ensures e.Resolved? <==> id in t && |SessionRows(MarkPaid(t, id, sessionId), sessionId)| == 1
  {
    var a := UpdateAndGet(t, id, sessionId);
    if a.row.Some? then Resolved(a.row, a.table) else Threw(a.table)
  }

  /** The enhanced table first; the legacy table only when that threw. A
      lookup that resolves, to a row or to null, ends the attempt. */
  function Reconcile(stores: Stores, id: string, sessionId: string, helpers: EnhancedHelpers): (r: (Option<Row>, Stores))
    ensures r.1.enhanced == helpers(stores.enhanced, id, sessionId).table
    ensures helpers(stores.enhanced, id, sessionId).Resolved? ==>
      r.0 == helpers(stores.enhanced, id, sessionId).row && r.1.legacy == stores.legacy
    ensures helpers(stores.enhanced, id, sessionId).Threw? && id !in stores.legacy ==>
      r.0.None? && r.1.legacy == stores.legacy
    ensures helpers(stores.enhanced, id, sessionId).Threw? && r.0.Some? ==>
      && r.0.value.paymentStatus == Completed && r.0.value.stripeSessionId == Some(sessionId)
      && id in r.1.legacy && r.1.legacy[id] == r.0.value
    ensures helpers(stores.enhanced, id, sessionId).Threw? ==>
      r.1.legacy.Keys == stores.legacy.Keys && forall k :: k in stores.legacy && k != id ==> r.1.legacy[k] == stores.legacy[k]
  {
    match helpers(stores.enhanced, id, sessionId)
    case Resolved(row, t) => (row, Stores(t, stores.legacy))
    case Threw(t) =>
      var l := UpdateAndGet(stores.legacy, id, sessionId);
      (l.row, Stores(t, l.table))
  }

  /** Both receipts: duplicate prevention on, type `payment_confirmation`,
      no unique id. */
  const PaymentOptions: Option<SendOptions> := Some(SendOptions(true, Some(PaymentConfirmation), None))

  /** The two receipts for a paid row; a failed send is caught and logged. */
  function Receipts(row: Row, s: WebhookServices, sent: SentStore): (r: (seq<Outgoing>, SentStore))
    ensures |r.0| <= 2
    ensures forall m :: m in r.0 ==> m.to == [row.email] || m.to == [AdminEmail(s.env)]
  {
    var client := SendEmail(s.env, sent, PaymentClientEmail(row.email, s.clientBody), PaymentOptions, s.now, s.clientReply);
    var admin := SendEmail(s.env, client.store, PaymentAdminEmail(s.env, row.name, s.adminBody), PaymentOptions, s.now, s.adminReply);
    ((if client.request.Some? then [client.request.value] else [])
       + (if admin.request.Some? then [admin.request.value] else []), admin.store)
  }

  /** A reference id the handler acts on: present and not empty. */
  predicate ActsOn(reference: Option<string>)
    ensures reference.None? || reference == Some("") ==> !ActsOn(reference)
    ensures ActsOn(reference) ==> reference.Some? && |reference.value| > 0
  {
    reference.Some? && reference.value != []
  }

  /** `checkout.session.completed`. No row, whether the legacy attempt threw
      or the enhanced lookup resolved to null, is answered not found. */
  function OnCompleted(sessionId: string, reference: Option<string>, s: WebhookServices, stores: Stores, sent: SentStore,
                       helpers: EnhancedHelpers): (r: WebhookOutcome)
    ensures r.reply == Received || r.reply == NotFound
    ensures !ActsOn(reference) ==> r == WebhookOutcome(Received, stores, [], sent)
    ensures ActsOn(reference) ==> r.stores == Reconcile(stores, reference.value, sessionId, helpers).1
    ensures r.reply == NotFound <==> ActsOn(reference) && Reconcile(stores, reference.value, sessionId, helpers).0.None?
    ensures r.reply == NotFound ==> r.mails == [] && r.sent == sent
  {
    if !ActsOn(reference) then WebhookOutcome(Received, stores, [], sent)
    else
      var (row, stores') := Reconcile(stores, reference.value, sessionId, helpers);
      match row
      case None => WebhookOutcome(NotFound, stores', [], sent)
      case Some(paid) =>
        var (mails, sent') := Receipts(paid, s, sent);
        WebhookOutcome(Received, stores', mails, sent')
  }

  /** `handler`. */
  function Handle(req: WebhookRequest, s: WebhookServices, stores: Stores, sent: SentStore, helpers: EnhancedHelpers): (r: WebhookOutcome)
    ensures r.reply.status in {200, 400, 405}
    ensures r.reply.status != 200 ==> r.mails == [] && r.sent == sent
    ensures r.stores != stores ==> req.verified.Some? && req.verified.value.CheckoutCompleted?
  {
    if req.verb != "POST" then WebhookOutcome(NotAllowed, stores, [], sent)
    else if req.signature.None? || req.signature.value == [] then WebhookOutcome(MissingSignature, stores, [], sent)
    else
      match req.verified
      case None => WebhookOutcome(WebhookError, stores, [], sent)
      case Some(event) =>
        match event
        case CheckoutCompleted(sessionId, reference) => OnCompleted(sessionId, reference, s, stores, sent, helpers)
        case _ => WebhookOutcome(Received, stores, [], sent)
  }

  // ---------------------------------------------------------------- properties

  /** Anything but POST is answered 405 and changes nothing. */
  lemma NonPostRejected(req: WebhookRequest, s: WebhookServices, stores: Stores, sent: SentStore,
                          helpers: EnhancedHelpers)
    requires req.verb != "POST"
    ensures Handle(req, s, stores, sent, helpers) == WebhookOutcome(NotAllowed, stores, [], sent)
  {
  }

  /** A missing or empty signature is answered 400 before verification; a
      body that fails verification is answered 400 by the catch-all;
      neither changes anything. */
  lemma UnverifiedRejected(req: WebhookRequest, s: WebhookServices, stores: Stores, sent: SentStore,
                          helpers: EnhancedHelpers)
    requires req.verb == "POST"
    requires req.signature.None? || req.signature.value == [] || req.verified.None?
    ensures var r := Handle(req, s, stores, sent, helpers);
      && r.reply.status == 400 && r.stores == stores && r.mails == [] && r.sent == sent
      && (req.signature.None? || req.signature.value == [] ==> r.reply == MissingSignature)
  {
  }

  /** Expired sessions, failed payments, unknown events and completed
      sessions without a reference are acknowledged with 200 and change
      nothing. */
  lemma OtherEventsAcknowledged(req: WebhookRequest, s: WebhookServices, stores: Stores, sent: SentStore,
                          helpers: EnhancedHelpers)
    requires req.verb == "POST" && req.signature.Some? && req.signature.value != [] && req.verified.Some?
    requires !req.verified.value.CheckoutCompleted? || !ActsOn(req.verified.value.reference)
    ensures Handle(req, s, stores, sent, helpers) == WebhookOutcome(Received, stores, [], sent)
  {
  }

  /** An id the enhanced helpers throw on and the legacy table does not
      hold is answered 400 "Submission not found", with no receipt and the
      legacy table unchanged. */
  lemma UnknownSubmissionNotFound(sessionId: string, id: string, s: WebhookServices, stores: Stores, sent: SentStore,
                                  helpers: EnhancedHelpers, t: Table)
    requires id != [] && id !in stores.legacy && helpers(stores.enhanced, id, sessionId) == Threw(t)
    ensures OnCompleted(sessionId, Some(id), s, stores, sent, helpers) == WebhookOutcome(NotFound, Stores(t, stores.legacy), [], sent)
  {
  }

  /** An enhanced lookup that resolves to null is answered 400 "Submission
      not found" without trying the legacy table. */
  lemma EnhancedNullNotFound(sessionId: string, id: string, s: WebhookServices, stores: Stores, sent: SentStore,
                             helpers: EnhancedHelpers, t: Table)
    requires id != [] && helpers(stores.enhanced, id, sessionId) == Resolved(None, t)
    ensures OnCompleted(sessionId, Some(id), s, stores, sent, helpers) == WebhookOutcome(NotFound, Stores(t, stores.legacy), [], sent)
  {
  }

  /** No other row of a table carries the session id. */
  predicate SessionFree(t: Table, id: string, sessionId: string)
  {
    forall k :: k in t && k != id ==> t[k].stripeSessionId != Some(sessionId)
  }

  lemma SessionRowsOfMarked(t: Table, id: string, sessionId: string)
    requires id in t && SessionFree(t, id, sessionId)
    ensures SessionRows(MarkPaid(t, id, sessionId), sessionId) == {id}
  {
  }

  /** Helpers that behave like the legacy ones mark a known row paid and
      read it back when no other row carries the session. */
  lemma SingleRowHelpersMarkPaid(t: Table, id: string, sessionId: string)
    requires id in t && SessionFree(t, id, sessionId)
    ensures SingleRowHelpers(t, id, sessionId) == Resolved(Some(MarkPaid(t, id, sessionId)[id]), MarkPaid(t, id, sessionId))
  {
    SessionRowsOfMarked(t, id, sessionId);
  }

  /** An enhanced lookup that resolves to a row: the answer is 200, the
      legacy table is not touched, and the receipts go to that row's
      address and to the administrator. */
  lemma EnhancedFirst(sessionId: string, id: string, s: WebhookServices, stores: Stores, sent: SentStore,
                      helpers: EnhancedHelpers, row: Row, t: Table)
    requires id != [] && helpers(stores.enhanced, id, sessionId) == Resolved(Some(row), t)
    ensures var r := OnCompleted(sessionId, Some(id), s, stores, sent, helpers);
      && r.reply == Received
      && r.stores == Stores(t, stores.legacy)
      && forall m :: m in r.mails ==> m.to == [row.email] || m.to == [AdminEmail(s.env)]
  {
  }

  /** Enhanced helpers that throw, and an id the legacy table holds: that
      row alone is marked paid there, and the answer is 200. */
  lemma LegacyFallback(sessionId: string, id: string, s: WebhookServices, stores: Stores, sent: SentStore,
                       helpers: EnhancedHelpers, t: Table)
    requires id != [] && helpers(stores.enhanced, id, sessionId) == Threw(t)
    requires id in stores.legacy && SessionFree(stores.legacy, id, sessionId)
    ensures var r := OnCompleted(sessionId, Some(id), s, stores, sent, helpers);
      && r.reply == Received
      && r.stores == Stores(t, MarkPaid(stores.legacy, id, sessionId))
  {
    SessionRowsOfMarked(stores.legacy, id, sessionId);
  }

  /** On a 200 for a referenced checkout, the receipts go only to the row's
      address and to the administrator; a row from the legacy table is now
      paid there with the session id, and a row from the enhanced helpers
      is the one their lookup returned, with the legacy table untouched. */
  lemma PaidRowOnSuccess(sessionId: string, id: string, s: WebhookServices, stores: Stores, sent: SentStore,
                         helpers: EnhancedHelpers)
    requires id != []
    requires OnCompleted(sessionId, Some(id), s, stores, sent, helpers).reply == Received
    ensures var r := OnCompleted(sessionId, Some(id), s, stores, sent, helpers);
      var e := helpers(stores.enhanced, id, sessionId);
      var row := Reconcile(stores, id, sessionId, helpers).0;
      && row.Some?
      && (e.Threw? ==>
            && row.value.paymentStatus == Completed && row.value.stripeSessionId == Some(sessionId)
            && id in r.stores.legacy && r.stores.legacy[id] == row.value)
      && (e.Resolved? ==> row == e.row && r.stores == Stores(e.table, stores.legacy))
      && forall m :: m in r.mails ==> m.to == [row.value.email] || m.to == [AdminEmail(s.env)]
  {
    var (row, stores') := Reconcile(stores, id, sessionId, helpers);
    assert row.Some?;
  }

  /** Marking a row paid twice is marking it once. */
  lemma MarkPaidIdempotent(t: Table, id: string, sessionId: string)
    requires id in t
    ensures MarkPaid(MarkPaid(t, id, sessionId), id, sessionId) == MarkPaid(t, id, sessionId)
  {
  }

  /** Trying a table again after a try gives the same row and the same
      table. */
  lemma UpdateAndGetIdempotent(t: Table, id: string, sessionId: string)
    ensures var a := UpdateAndGet(t, id, sessionId);
      UpdateAndGet(a.table, id, sessionId) == a
  {
    if id in t {
      MarkPaidIdempotent(t, id, sessionId);
    }
  }

  /** Calling the enhanced helpers again on the table they left gives the
      same reply and the same table. */
  predicate HelpersIdempotent(helpers: EnhancedHelpers, t: Table, id: string, sessionId: string)
  {
    helpers(helpers(t, id, sessionId).table, id, sessionId) == helpers(t, id, sessionId)
  }

  /** Helpers that behave like the legacy ones are idempotent. */
  lemma SingleRowHelpersIdempotent(t: Table, id: string, sessionId: string)
    ensures HelpersIdempotent(SingleRowHelpers, t, id, sessionId)
  {
    UpdateAndGetIdempotent(t, id, sessionId);
  }

  /** Replaying a completed event, with enhanced helpers that are
      idempotent, leaves both tables as one delivery left them: the legacy
      update is an assignment, not an increment. */
  lemma ReplayIdempotent(sessionId: string, reference: Option<string>, s1: WebhookServices, s2: WebhookServices,
                         stores: Stores, sent: SentStore, helpers: EnhancedHelpers)
    requires ActsOn(reference) ==> HelpersIdempotent(helpers, stores.enhanced, reference.value, sessionId)
    ensures var once := OnCompleted(sessionId, reference, s1, stores, sent, helpers);
      var twice := OnCompleted(sessionId, reference, s2, once.stores, once.sent, helpers);
      twice.stores == once.stores && twice.reply == once.reply
  {
    if ActsOn(reference) {
      UpdateAndGetIdempotent(stores.legacy, reference.value, sessionId);
    }
  }

  /** Both receipts of a replayed delivery that arrives within five minutes
      of one whose receipts both went out are skipped as duplicates, even
      when the provider failed the first time: the keys are marked before
      the provider is called. */
  lemma ReplayWithinCooldownSendsNoReceipt(sessionId: string, reference: Option<string>,
                                            s1: WebhookServices, s2: WebhookServices, stores: Stores, sent: SentStore,
                                            helpers: EnhancedHelpers)
    requires s1.now != 0 && s1.now <= s2.now && s2.now - s1.now < CooldownMs
    requires s1.env == s2.env
    requires ActsOn(reference) ==> HelpersIdempotent(helpers, stores.enhanced, reference.value, sessionId)
    requires |OnCompleted(sessionId, reference, s1, stores, sent, helpers).mails| == 2
    ensures var once := OnCompleted(sessionId, reference, s1, stores, sent, helpers);
      var twice := OnCompleted(sessionId, reference, s2, once.stores, once.sent, helpers);
      twice.reply == Received && twice.mails == [] && twice.sent == once.sent
  {
    var id := reference.value;
    var (row, stores1) := Reconcile(stores, id, sessionId, helpers);
    UpdateAndGetIdempotent(stores.legacy, id, sessionId);
    assert Reconcile(stores1, id, sessionId, helpers).0 == row;
    var paid := row.value;
    var ct := PaymentClientEmail(paid.email, s1.clientBody);
    var at := PaymentAdminEmail(s1.env, paid.name, s1.adminBody);
    var c1 := SendEmail(s1.env, sent, ct, PaymentOptions, s1.now, s1.clientReply);
    var a1 := SendEmail(s1.env, c1.store, at, PaymentOptions, s1.now, s1.adminReply);
    assert !c1.outcome.Skipped? && !a1.outcome.Skipped?;
    var kc := KeyFor(ct, PaymentOptions);
    var ka := KeyFor(at, PaymentOptions);
    MarkThenDuplicate(sent, kc, s1.now, s2.now);
    MarkThenDuplicate(c1.store, ka, s1.now, s2.now);
    if kc != ka {
      MarkSentLeavesOthers(c1.store, ka, kc, s1.now, s2.now);
    }
    assert IsDuplicate(a1.store, kc, s2.now);
    ClientTemplateIgnoresBody(paid.email, s1.clientBody, s2.clientBody);
    AdminTemplateIgnoresBody(s1.env, paid.name, s1.adminBody, s2.adminBody);
  }

  /** The dedupe key of a receipt does not depend on its HTML. */
  lemma ClientTemplateIgnoresBody(to: string, b1: string, b2: string)
    ensures KeyFor(PaymentClientEmail(to, b1), PaymentOptions) == KeyFor(PaymentClientEmail(to, b2), PaymentOptions)
  {
  }

  lemma AdminTemplateIgnoresBody(env: Env, name: string, b1: string, b2: string)
    ensures KeyFor(PaymentAdminEmail(env, name, b1), PaymentOptions) == KeyFor(PaymentAdminEmail(env, name, b2), PaymentOptions)
  {
  }

  /** The provider's replies change neither the answer nor the tables: a
      failed receipt is only logged. */
  lemma MailRepliesDoNotMatter(req: WebhookRequest, s: WebhookServices, stores: Stores, sent: SentStore,
                               helpers: EnhancedHelpers, c: ProviderReply, a: ProviderReply)
    ensures var r1 := Handle(req, s, stores, sent, helpers);
      var r2 := Handle(req, s.(clientReply := c, adminReply := a), stores, sent, helpers);
      r1.reply == r2.reply && r1.stores == r2.stores
  {
    if req.verb == "POST" && req.signature.Some? && req.signature.value != []
       && req.verified.Some? && req.verified.value.CheckoutCompleted? {
      var e := req.verified.value;
      ReceiptsDoNotDecide(e.sessionId, e.reference, s, s.(clientReply := c, adminReply := a), stores, sent, helpers);
    }
  }

  /** Only the receipts depend on the services. */
  lemma ReceiptsDoNotDecide(sessionId: string, reference: Option<string>, s1: WebhookServices, s2: WebhookServices,
                            stores: Stores, sent: SentStore, helpers: EnhancedHelpers)
    ensures var r1 := OnCompleted(sessionId, reference, s1, stores, sent, helpers);
      var r2 := OnCompleted(sessionId, reference, s2, stores, sent, helpers);
      r1.reply == r2.reply && r1.stores == r2.stores
  {
  }
}
